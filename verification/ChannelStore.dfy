/** The channel tables, updated in place by the locked transactions of src/core/channelCredential.ts and
    src/core/provisioning.ts, each proved against the model's step. */
module ChannelStore {
  import opened Base
  import opened Fences
  import opened ChannelModel
  import opened ChannelExact
  import opened ChannelTheorems

  class ChannelTables {
    const digest: Digest
    var now: int
    var minted: set<Id>
    var stored: map<Tuple, Credential>
    var actsAs: map<Tuple, ActsAs>
    var requests: map<(Tuple, string), SetupRequest>
    var changed: map<Tuple, int>
    var tombs: Tombstones
    var audit: seq<IdentityAudit>

    constructor (digest: Digest, now: int)
      ensures this.digest == digest && View().now == now && Init(View())
    {
      this.digest := digest;
      this.now := now;
      minted := {};
      stored, actsAs, requests, changed := map[], map[], map[], map[];
      tombs := NO_TOMBSTONES;
      audit := [];
    }

    function View(): Tables
      reads this
    {
      Tables(now, minted, stored, actsAs, requests, changed, tombs, audit)
    }

    ghost predicate Valid()
      reads this
    {
      Inv(View())
    }

    /** `getIdentity`: no row is `person`. */
    method GetIdentity(c: Tuple) returns (who: ActsAs)
      ensures who == ActingAs(View(), c)
    {
      return if c in actsAs then actsAs[c] else Person;
    }

    /** `purgeChannelInteractionState`. */
    method PurgeInteraction(c: Tuple)
      modifies this`changed, this`requests
      ensures View() == Purge(old(View()), c) && PurgedOnly(old(View()), View(), c)
    {
      changed := Raise(changed, c, now);
      requests := map k | k in requests && k.0 != c :: requests[k];
    }

    /** The locked delete: satellites go only with a row. */
    method DeleteLocked(c: Tuple) returns (removed: bool)
      modifies this`stored, this`changed, this`requests
      ensures View() == DeleteCredential(old(View()), c) && removed == (c in old(stored))
    {
      removed := c in stored;
      if removed {
        stored := stored - {c};
        PurgeInteraction(c);
      }
    }

    method Record(actor: Identity, c: Tuple, who: ActsAs)
      modifies this`audit
      ensures View() == Audited(old(View()), actor, c, who)
    {
      audit := audit + [IdentityAudit(actor.user, c, who)];
    }

    method ConsumeRequest(actor: Identity, c: Tuple, id: Id) returns (createdAt: Option<int>)
      modifies this`requests
      ensures (View(), createdAt) == Consume(old(View()), actor, c, FromRequest(id))
      ensures createdAt == if LiveRequest(old(View()), actor, c, id) then Some(old(requests)[(c, actor.user)].createdAt) else None
      ensures createdAt.Some? ==> (c, actor.user) !in requests
      ensures createdAt.None? ==> View() == old(View())
    {
      var k := (c, actor.user);
      if k !in requests || requests[k].id != id || requests[k].expiresAt <= now {
        return None;
      }
      createdAt := Some(requests[k].createdAt);
      requests := requests - {k};
    }

    method IssueRequest(actor: Identity, c: Tuple, issuedAt: int, newId: Id) returns (r: Option<Id>)
      requires Valid() && Enabled(View(), IssueOp(actor, c, issuedAt, newId))
      modifies this`requests, this`minted
      ensures Valid() && (View(), r) == Issue(digest, old(View()), actor, c, issuedAt, newId)
      ensures r.None? ==> View() == old(View())
      ensures r.Some? ==> (c, actor.user) in requests && requests[(c, actor.user)].id == r.value && requests[(c, actor.user)].expiresAt > now
    {
      hide Inv, SetupBlocked;
      StepKeepsInv(digest, View(), IssueOp(actor, c, issuedAt, newId));
      if SetupBlocked(digest, View(), actor, c, issuedAt) || issuedAt + PENDING_TTL <= now {
        return None;
      }
      var k := (c, actor.user);
      if k in requests && requests[k].expiresAt > now && !SetupBlocked(digest, View(), actor, c, requests[k].createdAt) {
        return Some(requests[k].id);
      }
      requests := requests[k := SetupRequest(newId, issuedAt, issuedAt + PENDING_TTL)];
      minted := minted + {newId};
      return Some(newId);
    }

    /** `configureChannelCredential` inside its three locks: resolve the issuance once, compare the three
        tombstones, then the credential with its satellite purge, the identity, the final purge, the audit. */
    method ConfigureChannelCredential(actor: Identity, c: Tuple, issuance: Issuance, newId: Id) returns (ok: bool)
      requires Valid() && Enabled(View(), ConfigureOp(actor, c, issuance, newId))
      modifies this
      ensures Valid() && (View(), ok) == Configure(digest, old(View()), actor, c, issuance, newId)
      ensures ok <==> (
        var at := ActingAt(old(View()), actor, c, issuance);
        at.Some? && Unblocked(digest, old(View()), actor, c, at.value))
      ensures ok ==> stored == old(stored)[c := Credential(newId, now)] && actsAs == old(actsAs)[c := SharedChannel]
      ensures ok ==> PurgedOnly(old(View()), View(), c)
      ensures !ok ==> stored == old(stored) && actsAs == old(actsAs) && changed == old(changed) && audit == old(audit)
    {
      hide Inv, PurgedOnly, Unblocked, Configure, ActingAt;
      ConfigureExact(digest, View(), actor, c, issuance, newId);
      StepKeepsInv(digest, View(), ConfigureOp(actor, c, issuance, newId));
      ok := SetUp(actor, c, issuance, newId);
    }

    /** Its statements. */
    method SetUp(actor: Identity, c: Tuple, issuance: Issuance, newId: Id) returns (ok: bool)
      modifies this
      ensures (View(), ok) == Configure(digest, old(View()), actor, c, issuance, newId)
    {
      hide SetupBlocked, PurgedOnly;
      var issuedAt: Option<int>;
      match issuance {
        case Direct(at) => issuedAt := Some(at);
        case FromRequest(id) => issuedAt := ConsumeRequest(actor, c, id);
      }
      if issuedAt.None? || SetupBlocked(digest, View(), actor, c, issuedAt.value) {
        return false;
      }
      stored := stored[c := Credential(newId, now)];
      minted := minted + {newId};
      ghost var written := View();
      PurgeInteraction(c);
      actsAs := actsAs[c := SharedChannel];
      PurgeInteraction(c);
      PurgedTwice(written, c);
      Record(actor, c, SharedChannel);
      return true;
    }

    /** `setChannelCredentialIdentity`: read the previous identity, delete on a move to `person`, write,
        purge only on a change, audit. */
    method SetChannelCredentialIdentity(actor: Identity, c: Tuple, who: ActsAs, issuedAt: int) returns (ok: bool)
      requires Valid() && Enabled(View(), SetIdentityOp(actor, c, who, issuedAt))
      modifies this
      ensures Valid() && (View(), ok) == SetIdentity(old(View()), actor, c, who, issuedAt)
      ensures ok == Current(tombs, actor, issuedAt) && (!ok ==> View() == old(View()))
      ensures ok ==> ActingAs(View(), c) == who && (who == Person ==> c !in stored)
    {
      hide Inv, Current;
      StepKeepsInv(digest, View(), SetIdentityOp(actor, c, who, issuedAt));
      if !Current(tombs, actor, issuedAt) {
        return false;
      }
      var previous := GetIdentity(c);
      if who == Person {
        var _ := DeleteLocked(c);
      }
      actsAs := actsAs[c := who];
      if previous != who {
        PurgeInteraction(c);
      }
      Record(actor, c, who);
      return true;
    }

    /** `disconnectChannelShared` up to its commit: actor fence, identity, current generation, claim-delete,
        then the flip with its purge and audit. */
    method DisconnectChannelShared(actor: Identity, c: Tuple, issuedAt: int) returns (d: Disconnected)
      requires Valid() && Enabled(View(), DisconnectOp(actor, c, issuedAt))
      modifies this
      ensures Valid() && (View(), d) == Disconnect(old(View()), actor, c, issuedAt)
      ensures d.StaleRequest? || d.NotShared? ==> View() == old(View())
      ensures d.Missing? || d.Removed? ==> ActingAs(View(), c) == Person && c !in stored && c in changed && changed[c] >= now
      ensures d.Removed? <==> c in old(stored) && c !in stored
      ensures d.Removed? ==> old(stored)[c].generationAt < issuedAt
    {
      hide Inv, Current;
      DisconnectContract(View(), actor, c, issuedAt);
      StepKeepsInv(digest, View(), DisconnectOp(actor, c, issuedAt));
      if !Current(tombs, actor, issuedAt) {
        return StaleRequest;
      }
      var who := GetIdentity(c);
      if who != SharedChannel {
        return NotShared;
      }
      if c in stored && stored[c].generationAt >= issuedAt {
        return StaleRequest;
      }
      var removed := DeleteLocked(c);
      actsAs := actsAs[c := Person];
      PurgeInteraction(c);
      Record(actor, c, Person);
      return if removed then Removed else Missing;
    }
  }

  /** The credential write's own purge and the final one leave the same tables as one purge. */
  lemma PurgedTwice(t: Tables, c: Tuple)
    ensures Purge(WriteIdentity(Purge(t, c), c, SharedChannel), c) == Purge(WriteIdentity(t, c, SharedChannel), c)
  {
    var once := Purge(WriteIdentity(t, c, SharedChannel), c);
    var twice := Purge(WriteIdentity(Purge(t, c), c, SharedChannel), c);
    assert once.changed == twice.changed;
    assert once.requests == twice.requests;
  }
}
