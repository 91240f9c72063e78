/** When each transaction on a channel credential gives each of its answers, and exactly what it writes, in terms of the
    tables alone. */
module ChannelExact {
  import opened Base
  import opened Fences
  import opened ChannelModel

  /** Nothing fenced this member, this channel's provider or this tuple at or after the instant. */
  ghost predicate Unblocked(digest: Digest, t: Tables, actor: Identity, c: Tuple, at: int) {
    && Current(t.tombs, actor, at)
    && !Blocks(LatestRevocation(digest, t.tombs, Owner(c.team, ChannelOwned, c.channel), c.provider), at)
    && (c in t.changed ==> t.changed[c] < at)
  }

  ghost predicate Shared(t: Tables, c: Tuple) {
    c in t.actsAs && t.actsAs[c] == SharedChannel
  }

  /** The member's own unexpired request of this id. */
  ghost predicate LiveRequest(t: Tables, actor: Identity, c: Tuple, id: Id) {
    var k := (c, actor.user);
    k in t.requests && t.requests[k].id == id && t.requests[k].expiresAt > t.now
  }

  /** The tuple is fenced now and has no open setup request; every other tuple's requests and stamp stay. */
  ghost predicate PurgedOnly(t: Tables, t': Tables, c: Tuple) {
    && c in t'.changed && t'.changed[c] == (if c in t.changed && t.changed[c] > t.now then t.changed[c] else t.now)
    && (forall d :: d != c ==> Lookup(t'.changed, d) == Lookup(t.changed, d))
    && (forall k :: k in t'.requests <==> k in t.requests && k.0 != c)
    && (forall k :: k in t'.requests ==> t'.requests[k] == t.requests[k])
  }

  ghost predicate Unpurged(t: Tables, t': Tables) {
    t'.changed == t.changed && t'.requests == t.requests
  }

  /** When a setup request is minted, reused or refused, and that only the member's own request for the tuple is written. */
  lemma IssueExact(digest: Digest, t: Tables, actor: Identity, c: Tuple, issuedAt: int, newId: Id)
    requires Inv(t) && newId !in t.minted
    ensures var (t', r) := Issue(digest, t, actor, c, issuedAt, newId); var k := (c, actor.user);
      var may := Unblocked(digest, t, actor, c, issuedAt) && t.now < issuedAt + PENDING_TTL;
      var live := k in t.requests && t.requests[k].expiresAt > t.now && Unblocked(digest, t, actor, c, t.requests[k].createdAt);
      && (r == (if !may then None else if live then Some(t.requests[k].id) else Some(newId)))
      && t' == if may && !live then t.(requests := t.requests[k := SetupRequest(newId, issuedAt, issuedAt + PENDING_TTL)], minted := t.minted + {newId})
               else t
  {
    hide LatestOffboard, LatestRevocation, StoredOk, RequestsOk, LastAudited;
  }

  /** The issuance a setup acts under: its own receipt, or the mint time of the live request it presents. */
  ghost function ActingAt(t: Tables, actor: Identity, c: Tuple, issuance: Issuance): Option<int> {
    match issuance
    case Direct(at) => Some(at)
    case FromRequest(id) => if LiveRequest(t, actor, c, id) then Some(t.requests[(c, actor.user)].createdAt) else None
  }

  /** Exactly when a setup commits, and everything it writes; a refusal at most spends the request it presented. */
  lemma ConfigureExact(digest: Digest, t: Tables, actor: Identity, c: Tuple, issuance: Issuance, newId: Id)
    ensures var (t', ok) := Configure(digest, t, actor, c, issuance, newId); var at := ActingAt(t, actor, c, issuance);
      && (ok <==> at.Some? && Unblocked(digest, t, actor, c, at.value))
      && if ok then
           && t' == t.(stored := t.stored[c := Credential(newId, t.now)], minted := t.minted + {newId}, actsAs := t.actsAs[c := SharedChannel],
                       changed := t'.changed, requests := t'.requests, audit := t.audit + [IdentityAudit(actor.user, c, SharedChannel)])
           && PurgedOnly(t, t', c)
         else t' == t.(requests := if issuance.FromRequest? && at.Some? then t.requests - {(c, actor.user)} else t.requests)
  {
    hide LatestOffboard, LatestRevocation;
  }

  /** An identity change is refused exactly for a fenced actor. It deletes a row exactly on a move to `person`, and purges exactly
      when it changes the identity or deletes a row. */
  lemma SetIdentityExact(t: Tables, actor: Identity, c: Tuple, who: ActsAs, issuedAt: int)
    ensures var (t', ok) := SetIdentity(t, actor, c, who, issuedAt);
      && (ok <==> Current(t.tombs, actor, issuedAt))
      && if ok then
           && t' == t.(stored := if who == Person then t.stored - {c} else t.stored, actsAs := t.actsAs[c := who],
                       changed := t'.changed, requests := t'.requests, audit := t.audit + [IdentityAudit(actor.user, c, who)])
           && if Shared(t, c) != (who == SharedChannel) || (who == Person && c in t.stored) then PurgedOnly(t, t', c) else Unpurged(t, t')
         else t' == t
  {
    hide LatestOffboard;
    assert c !in t.stored ==> t.stored - {c} == t.stored;
    PurgeTwice(t, c, who);
  }

  /** Exactly when a shared disconnect gives each answer, and everything that a committed one writes. */
  lemma DisconnectExact(t: Tables, actor: Identity, c: Tuple, issuedAt: int)
    ensures var (t', d) := Disconnect(t, actor, c, issuedAt);
      var may := Current(t.tombs, actor, issuedAt); var newer := c in t.stored && t.stored[c].generationAt >= issuedAt;
      && (d == StaleRequest <==> !may || (Shared(t, c) && newer))
      && (d == NotShared <==> may && !Shared(t, c))
      && (d == Removed <==> may && Shared(t, c) && !newer && c in t.stored)
      && (d == Missing <==> may && Shared(t, c) && c !in t.stored)
      && if d.Removed? || d.Missing? then
           && t' == t.(stored := t.stored - {c}, actsAs := t.actsAs[c := Person], changed := t'.changed, requests := t'.requests,
                       audit := t.audit + [IdentityAudit(actor.user, c, Person)])
           && PurgedOnly(t, t', c)
         else t' == t
  {
    hide LatestOffboard;
    assert c !in t.stored ==> t.stored - {c} == t.stored;
    PurgeTwice(t, c, Person);
  }

  lemma PurgeTwice(t: Tables, c: Tuple, who: ActsAs)
    ensures var once := Purge(t, c); var twice := Purge(WriteIdentity(Purge(t, c), c, who), c);
      PurgedOnly(t, once, c) && twice.changed == once.changed && twice.requests == once.requests
  {
  }

  /** The other steps: a delete takes one row, with its satellites exactly if there was one; the fallback takes the row alone; a
      governance change purges its tuple alone; a leaver's or lapsed requests go, and no others. */
  lemma OthersExact(digest: Digest, t: Tables, op: Op)
    ensures var t' := Apply(digest, t, op).0;
      match op
      case DropCredential(c) =>
        t' == t.(stored := t.stored - {c}, changed := t'.changed, requests := t'.requests) && if c in t.stored then PurgedOnly(t, t', c) else Unpurged(t, t')
      case FallbackDelete(c) => t' == t.(stored := t.stored - {c})
      case GovernanceChange(c) => t' == t.(changed := t'.changed, requests := t'.requests) && PurgedOnly(t, t', c)
      case RevokeRequests(team, user) =>
        && t' == t.(requests := t'.requests) && (forall k :: k in t'.requests <==> k in t.requests && !(k.0.team == team && k.1 == user))
        && forall k :: k in t'.requests ==> t'.requests[k] == t.requests[k]
      case SweepRequests =>
        && t' == t.(requests := t'.requests) && (forall k :: k in t'.requests <==> k in t.requests && t.now <= t.requests[k].expiresAt)
        && forall k :: k in t'.requests ==> t'.requests[k] == t.requests[k]
      case _ => true
  {
    hide Configure, SetIdentity, Disconnect, Issue, FenceStep;
    if op.DropCredential? {
      assert op.tuple !in t.stored ==> t.stored - {op.tuple} == t.stored;
    }
  }
}
