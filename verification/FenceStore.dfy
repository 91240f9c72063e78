/** The fence tables in the database, updated in place by the transactions of src/core/consent.ts. */
module FenceStore {
  import opened Base
  import opened Fences

  /** An actor or requester whose receipt must still be current. */
  datatype Receipt = Receipt(identity: Identity, issuedAt: int)

  datatype FenceVerdict = AllCurrent | Offboarded(index: nat)

  /** What `GREATEST` leaves in a row. */
  ghost function GreatestOf<K>(m: map<K, int>, k: K, t: int): (r: int)
    ensures r >= t && (k in m ==> r >= m[k]) && (r == t || (k in m && r == m[k]))
  {
    if k in m && m[k] > t then m[k] else t
  }

  /** The user's rows in these scopes hold the newer of what they held and the sample; every other row stays. */
  ghost predicate OnlyRaised(a: map<(OffboardScope, string), int>, b: map<(OffboardScope, string), int>, scopes: set<OffboardScope>,
                             user: string, t: int) {
    forall k: (OffboardScope, string) :: if k.1 == user && k.0 in scopes then RaisedTo(Lookup(a, k), Lookup(b, k), t) else Lookup(b, k) == Lookup(a, k)
  }

  class FenceTables {
    var now: int
    var team: map<(string, string), int>
    var scoped: map<(OffboardScope, string), int>
    var revoked: map<(string, string), int>
    const digest: Digest

    constructor (digest: Digest, now: int)
      ensures this.digest == digest && this.now == now && View() == NO_TOMBSTONES
    {
      this.digest := digest;
      this.now := now;
      team, scoped, revoked := map[], map[], map[];
    }

    function View(): Tombstones
      reads this
    {
      Tombstones(team, scoped, revoked)
    }

    /** One tombstone per scope, all carrying the same clock sample. */
    method WriteScopeOffboardMarkers(user: string, scopes: seq<OffboardScope>)
      modifies this`scoped
      ensures scoped == RaiseScopes(old(scoped), scopes, user, now)
    {
      var at := now;
      var i := 0;
      while i < |scopes|
        invariant 0 <= i <= |scopes|
        invariant scoped == RaiseScopes(old(scoped), scopes[..i], user, at)
      {
        assert scopes[..i + 1][..i] == scopes[..i];
        scoped := Raise(scoped, (scopes[i], user), at);
        i := i + 1;
      }
      assert scopes[..i] == scopes;
    }

    method MarkOffboarded(target: Identity)
      modifies this`team
      ensures View() == FenceStep(digest, old(View()), now, MarkTeam(target)).0
      ensures team == old(team)[(target.team, target.user) := GreatestOf(old(team), (target.team, target.user), now)]
    {
      team := Raise(team, (target.team, target.user), now);
    }

    method MarkUserOffboardedEverywhere(enterprise: Option<EnterpriseId>, user: string)
      modifies this`scoped
      ensures View() == FenceStep(digest, old(View()), now, MarkEverywhere(enterprise, user)).0
      ensures OnlyRaised(old(scoped), scoped, if enterprise.None? then {Global} else {Enterprise(enterprise.value), Unscoped}, user, now)
    {
      ScopesRaised(scoped, enterprise, user, now);
      WriteScopeOffboardMarkers(user, EverywhereScopes(enterprise));
    }

    method MarkUserOffboardedByActor(actor: Identity, issuedAt: int, user: string) returns (ok: bool)
      modifies this`team
      ensures (View(), ok) == FenceStep(digest, old(View()), now, TeamByActor(actor, issuedAt, user))
      ensures ok <==> Current(old(View()), actor, issuedAt)
      ensures ok ==> team == old(team)[(actor.team, user) := GreatestOf(old(team), (actor.team, user), now)]
      ensures !ok ==> View() == old(View())
    {
      if Blocks(LatestOffboard(View(), actor), issuedAt) {
        return false;
      }
      MarkOffboarded(Identity(actor.enterprise, actor.team, user));
      return true;
    }

    method MarkUserOffboardedEverywhereByActor(actor: Identity, issuedAt: int, user: string) returns (ok: bool)
      modifies this`scoped
      ensures (View(), ok) == FenceStep(digest, old(View()), now, EverywhereByActor(actor, issuedAt, user))
      ensures ok <==> actor.enterprise.Some? && Current(old(View()), actor, issuedAt)
      ensures ok ==> OnlyRaised(old(scoped), scoped, {Enterprise(actor.enterprise.value), Unscoped}, user, now)
      ensures !ok ==> View() == old(View())
    {
      if actor.enterprise.None? || Blocks(LatestOffboard(View(), actor), issuedAt) {
        return false;
      }
      ScopesRaised(scoped, actor.enterprise, user, now);
      WriteScopeOffboardMarkers(user, EverywhereScopes(actor.enterprise));
      return true;
    }

    method MarkProvisioningRevoked(filter: Filter) returns (at: Option<int>)
      modifies this`revoked
      ensures (View(), at.Some?) == FenceStep(digest, old(View()), now, Revoke(filter))
      ensures at.Some? <==> (
        && ValidProvider(filter.provider) && (filter.user.None? || filter.channel.None?)
        && filter.team != Some("") && filter.user != Some("") && filter.channel != Some(""))
      ensures at.Some? ==> at.value == now && var k := (filter.provider, digest(FilterScope(filter)));
        revoked == old(revoked)[k := GreatestOf(old(revoked), k, now)]
      ensures at.None? ==> View() == old(View())
    {
      if !ValidFilter(filter) {
        return None;
      }
      revoked := Raise(revoked, (filter.provider, digest(FilterScope(filter))), now);
      return Some(now);
    }

    /** The check that precedes every fenced mutation: the first stale receipt, in the caller's order,
        is the one reported. */
    method CheckReceipts(receipts: seq<Receipt>) returns (v: FenceVerdict)
      requires receipts != []
      ensures v.AllCurrent? <==> forall r :: r in receipts ==> Current(View(), r.identity, r.issuedAt)
      ensures v.Offboarded? ==>
        && v.index < |receipts|
        && !Current(View(), receipts[v.index].identity, receipts[v.index].issuedAt)
        && forall k :: 0 <= k < v.index ==> Current(View(), receipts[k].identity, receipts[k].issuedAt)
    {
      var i := 0;
      while i < |receipts|
        invariant 0 <= i <= |receipts|
        invariant forall k :: 0 <= k < i ==> Current(View(), receipts[k].identity, receipts[k].issuedAt)
      {
        if !Current(View(), receipts[i].identity, receipts[i].issuedAt) {
          return Offboarded(i);
        }
        i := i + 1;
      }
      return AllCurrent;
    }
  }
}
