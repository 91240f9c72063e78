/** The consent and connection tables, updated in place by the transactions of src/core/consent.ts,
    src/adapters/slackVerify.ts and src/core/oauthCallback.ts, each proved against the model's step. */
module ConsentStore {
  import opened Base
  import opened Fences
  import opened ConsentModel
  import opened ConsentRuns
  import opened ConsentExact
  import opened ConsentTheorems

  class ConsentTables {
    const cfg: Config
    var now: int
    var minted: set<Id>
    var rows: map<Id, ConsentRow>
    var live: map<Subject, Connection>
    var tombs: Tombstones
    var hops: map<nat, Claim>
    var callbacks: map<nat, Claim>

    constructor (cfg: Config, now: int)
      ensures this.cfg == cfg && View().now == now && Init(View())
    {
      this.cfg := cfg;
      this.now := now;
      minted := {};
      rows, live, hops, callbacks := map[], map[], map[], map[];
      tombs := NO_TOMBSTONES;
    }

    function View(): Tables
      reads this
    {
      Tables(now, minted, rows, live, tombs, hops, callbacks)
    }

    ghost predicate Valid()
      reads this
    {
      Inv(View())
    }

    /** SELECT ... FOR UPDATE by the partial unique index on unsuperseded rows. */
    method FindActive(s: Subject) returns (state: Option<Id>)
      requires OneActive(rows)
      ensures state == if HasActive(rows, s) then Some(ActiveOf(rows, s)) else None
    {
      state := None;
      if found :| found in rows && ActiveFor(rows[found], s) {
        state := Some(found);
      }
    }

    /** `beginFenced` under the credential, provisioning-revoke and offboard locks. */
    method BeginFenced(i: Identity, provider: string, channel: Option<string>, issuedAt: int, newId: Id) returns (r: Option<Id>)
      requires Valid() && newId !in minted
      modifies this`rows, this`minted
      ensures Valid() && (View(), r) == Begin(cfg, old(View()), i, provider, channel, issuedAt, newId)
      ensures r.None? ==> View() == old(View())
      ensures r.Some? ==> r.value in rows && Offered(cfg, View(), rows[r.value], i, provider, channel)
    {
      hide OneActive, LatestOffboard, LatestRevocation;
      ghost var before := View();
      StepKeepsInv(cfg, before, BeginOp(i, provider, channel, issuedAt, newId));
      BegunIsOffered(cfg, before, i, provider, channel, issuedAt, newId);
      if Fenced(cfg, View(), i, provider, issuedAt) {
        return None;
      }
      var existing := FindActive(SubjectFor(i, provider));
      if existing.Some? {
        var row := rows[existing.value];
        if ReusableConsent(cfg, View(), row, i, channel) {
          return existing;
        }
        if row.createdAt > issuedAt || now - issuedAt > STATE_TTL {
          return None;
        }
        rows := SupersedeRow(rows, existing.value, now);
      } else if now - issuedAt > STATE_TTL {
        return None;
      }
      rows := rows[newId := FreshConsent(i, provider, channel, issuedAt)];
      minted := minted + {newId};
      return Some(newId);
    }

    /** UPDATE ... SET slack_verified_at WHERE the row is still active; true iff a row changed. */
    method StampVerified(state: Id) returns (stamped: bool)
      modifies this`rows
      ensures (View(), stamped) == MarkSlackVerified(old(View()), state)
      ensures stamped ==> state in rows && rows[state].verifiedAt == Some(now) && rows[state].consumedAt.None?
    {
      stamped := ActiveConsent(View(), state);
      if stamped {
        rows := rows[state := rows[state].(verifiedAt := Some(now))];
      }
    }

    /** UPDATE ... SET consumed_at WHERE consumed_at IS NULL, then classify the returned row. */
    method Consume(state: Id) returns (status: ClaimStatus)
      modifies this`rows
      ensures (View(), status) == ConsumeState(cfg, old(View()), state)
      ensures SpentOrGone(View(), state) && (status.Unavailable? ==> View() == old(View()))
      ensures !status.Unavailable? ==> state in old(rows) && old(rows)[state].consumedAt.None? && rows[state].consumedAt == Some(now)
      ensures status.ActiveClaim? ==> (
        && rows[state].supersededAt.None? && now - rows[state].createdAt <= STATE_TTL
        && !Fenced(cfg, View(), rows[state].identity, rows[state].provider, rows[state].createdAt))
    {
      hide LatestOffboard, LatestRevocation, Fenced;
      if state in rows {
        ClassifyExact(cfg, View(), rows[state]);
        FencedFrame(cfg, View(), View().(rows := rows[state := ConsumedRow(View(), state)]), rows[state]);
      }
      hide Classify;
      if state !in rows || rows[state].consumedAt.Some? {
        return Unavailable;
      }
      var row := rows[state];
      status := Classify(cfg, View(), row);
      rows := rows[state := row.(consumedAt := Some(now))];
    }

    /** The hop's second half: compare byte for byte, then spend on a mismatch or stamp on a match. */
    method CompleteHop(hop: nat, answer: SlackAnswer) returns (r: HopResult)
      requires Valid() && hop in hops
      modifies this`rows, this`hops
      ensures Valid() && (View(), r) == FinishHop(cfg, old(View()), hop, answer)
      ensures r.HopVerified? ==> (
        var c := old(hops)[hop];
        && answer.SlackUser? && SlackMatches(c.row, answer.team, answer.sub)
        && c.state in rows && rows[c.state].verifiedAt == Some(now) && rows[c.state].consumedAt.None?)
      ensures r.HopMismatch? ==> SpentOrGone(View(), old(hops)[hop].state)
      ensures r.HopIncomplete? || r.HopFailed? ==> rows == old(rows)
    {
      hide Inv;
      StepKeepsInv(cfg, View(), FinishHopOp(hop, answer));
      var claim := hops[hop];
      hops := hops - {hop};
      match answer {
        case Cancelled => return HopIncomplete;
        case ExchangeRefused => return HopFailed;
        case SlackUser(team, sub) =>
          if !SlackMatches(claim.row, team, sub) {
            var spent := Consume(claim.state);
            return HopMismatch;
          }
          var stamped := StampVerified(claim.state);
          if !stamped || claim.row.provider !in cfg.providers {
            return HopStale;
          }
          return HopVerified;
      }
    }

    /** The callback up to its token exchange: spend first, then every early return in order. */
    method BeginCallback(cb: nat, state: Option<Id>, error: Option<string>, hasCode: bool) returns (r: CallbackResult)
      requires Valid() && cb !in callbacks
      modifies this`rows, this`callbacks
      ensures Valid() && (View(), r) == StartCallback(cfg, old(View()), cb, state, error, hasCode)
      ensures state.Some? ==> SpentOrGone(View(), state.value)
      ensures r.AwaitingExchange? ==> (
        && state.Some? && cb in callbacks && callbacks[cb].state == state.value
        && callbacks[cb].row.verifiedAt.Some? && callbacks[cb].row.consumedAt == Some(now))
      ensures !r.AwaitingExchange? ==> callbacks == old(callbacks)
    {
      hide Inv, Classify, Fenced, ConsumedRow;
      StepKeepsInv(cfg, View(), StartOp(cb, state, error, hasCode));
      if state.None? || state.value !in rows {
        return StateUnavailable;
      }
      var status := Consume(state.value);
      var row := rows[state.value];
      match status {
        case Unavailable => return StateUnavailable;
        case Expired => return StateExpired;
        case Superseded => return StateStale;
        case InvalidOffboarded => return SetupChanged(true);
        case InvalidRevoked => return SetupChanged(false);
        case ActiveClaim =>
      }
      if row.provider !in cfg.providers {
        return StateStale;
      }
      if row.verifiedAt.None? {
        return IdentityUnverified;
      }
      if error.Some? {
        return if error.value == "access_denied" then UserDenied else ExchangeFailed(TransientError(error.value));
      }
      if !hasCode {
        return Incomplete;
      }
      callbacks := callbacks[cb := Claim(state.value, row)];
      return AwaitingExchange;
    }

    /** `finalizeProvisioning`: delete the exact generation the callback spent, or keep only the verdict of a
        fence that removed it. */
    method FinalizeProvisioning(claim: Claim) returns (issuedAt: Option<int>)
      modifies this`rows
      ensures (rows, issuedAt) == Finalize(cfg, old(View()), claim)
    {
      if claim.state in rows {
        var row := rows[claim.state];
        if row.supersededAt.None? && row.consumedAt.Some? && SubjectOf(row) == SubjectOf(claim.row) {
          rows := rows - {claim.state};
          return Some(row.createdAt);
        }
      }
      if Fenced(cfg, View(), claim.row.identity, claim.row.provider, claim.row.createdAt) {
        return Some(claim.row.createdAt);
      }
      return None;
    }

    /** The fence around every user-credential write. */
    method WriteUserCredential(i: Identity, provider: string, issuedAt: int, newId: Id) returns (r: WriteResult)
      modifies this`rows, this`live, this`minted
      ensures (View(), r) == WriteUser(cfg, old(View()), i, provider, issuedAt, newId)
      ensures !r.Stored? ==> View() == old(View())
      ensures r.Stored? ==> (
        var s := SubjectFor(i, provider);
        && s in live && live[s] == Connection(newId, now) && !Fenced(cfg, View(), i, provider, issuedAt)
        && (s in old(live) ==> old(live)[s].generationAt < issuedAt)
        && forall state :: state in rows && ActiveFor(rows[state], s) && rows[state].consumedAt.None? ==> rows[state].createdAt > issuedAt)
      ensures r.Stored? <==>
        Unfenced(cfg, old(View()), i, provider, issuedAt) &&
        (SubjectFor(i, provider) in old(live) ==> old(live)[SubjectFor(i, provider)].generationAt < issuedAt)
      ensures r.Stored? ==> OnlySuperseded(old(rows), rows, i, provider, issuedAt, now)
      ensures r.Stored? ==> live == old(live)[Subject(i.team, i.user, provider) := Connection(newId, now)]
    {
      hide LatestOffboard, LatestRevocation;
      WriteExact(cfg, View(), i, provider, issuedAt, newId);
      if Blocks(LatestOffboard(tombs, i), issuedAt) {
        return WriteOffboarded;
      }
      if Blocks(LatestRevocation(cfg.digest, tombs, UserOwner(i), provider), issuedAt) {
        return WriteRevoked;
      }
      var s := SubjectFor(i, provider);
      if s in live && live[s].generationAt >= issuedAt {
        return WriteStale;
      }
      live := live[s := Connection(newId, now)];
      minted := minted + {newId};
      rows := SupersedeUpTo(rows, s, issuedAt, now);
      return Stored;
    }

    /** The callback's credential transaction. */
    method EndCallback(cb: nat, exchanged: bool, newId: Id) returns (r: CallbackResult)
      requires Valid() && cb in callbacks && newId !in minted
      modifies this`rows, this`live, this`minted, this`callbacks
      ensures Valid() && (View(), r) == CommitCallback(cfg, old(View()), cb, exchanged, newId)
      ensures !r.Connected? ==> live == old(live)
      ensures r.Connected? ==> (
        var c := old(callbacks)[cb];
        && c.state in old(rows) && old(rows)[c.state].supersededAt.None? && c.state !in rows
        && StillClaimed(old(View()), c)
        && live == old(live)[Subject(c.row.identity.team, c.row.identity.user, c.row.provider) := Connection(newId, now)]
        && OnlySuperseded(old(rows) - {c.state}, rows, c.row.identity, c.row.provider, old(rows)[c.state].createdAt, now))
    {
      hide Inv, Finalize, WriteUser;
      CommitExact(cfg, View(), cb, exchanged, newId);
      if CommitCallback(cfg, View(), cb, exchanged, newId).1 == Connected {
        CommitFacts(cfg, View(), cb, exchanged, newId);
      }
      CommitOtherwise(cfg, View(), cb, exchanged, newId);
      StepKeepsInv(cfg, View(), CommitOp(cb, exchanged, newId));
      var claim := callbacks[cb];
      callbacks := callbacks - {cb};
      if !exchanged {
        return ConnectionFailed;
      }
      ghost var entry := View();
      assert Finalize(cfg, entry, claim) == Finalize(cfg, old(View()), claim) by {
        FinalizeFrame(cfg, old(View()), entry, claim);
      }
      var issuedAt := FinalizeProvisioning(claim);
      if issuedAt.None? {
        FinalizeKeeps(cfg, entry, claim);
        return StateStale;
      }
      var w := WriteUserCredential(claim.row.identity, claim.row.provider, issuedAt.value, newId);
      return CommitResult(w);
    }
  }

  /** A prompt worth showing: active, unspent, in its lifetime, for exactly this member and place, and newer
      than every fence. */
  predicate Offered(cfg: Config, t: Tables, row: ConsentRow, i: Identity, provider: string, channel: Option<string>) {
    && row.identity == i && row.provider == provider && row.channel == channel
    && row.supersededAt.None? && row.consumedAt.None? && t.now - row.createdAt <= STATE_TTL
    && !Fenced(cfg, t, i, provider, row.createdAt)
  }

  lemma BegunIsOffered(cfg: Config, t: Tables, i: Identity, p: string, ch: Option<string>, issuedAt: int, newId: Id)
    requires Inv(t) && newId !in t.minted
    ensures var (t', r) := Begin(cfg, t, i, p, ch, issuedAt, newId);
      && (r.None? ==> t' == t)
      && (r.Some? ==> r.value in t'.rows && Offered(cfg, t', t'.rows[r.value], i, p, ch))
  {
    hide Begin, LatestOffboard, LatestRevocation;
    BeginContract(cfg, t, i, p, ch, issuedAt, newId);
  }

  lemma FencedFrame(cfg: Config, t: Tables, t': Tables, row: ConsentRow)
    requires t' == t.(rows := t'.rows)
    ensures Fenced(cfg, t', row.identity, row.provider, row.createdAt) == Fenced(cfg, t, row.identity, row.provider, row.createdAt)
  {
    hide LatestOffboard, LatestRevocation;
  }

  lemma CommitOtherwise(cfg: Config, t: Tables, cb: nat, exchanged: bool, newId: Id)
    requires cb in t.callbacks
    ensures CommitCallback(cfg, t, cb, exchanged, newId).1 != Connected ==> CommitCallback(cfg, t, cb, exchanged, newId).0.live == t.live
  {
    hide LatestOffboard, LatestRevocation, Finalize;
  }

  lemma FinalizeFrame(cfg: Config, t: Tables, t': Tables, c: Claim)
    requires t' == t.(callbacks := t'.callbacks)
    ensures Finalize(cfg, t', c) == Finalize(cfg, t, c)
  {
  }

  lemma FinalizeKeeps(cfg: Config, t: Tables, c: Claim)
    ensures Finalize(cfg, t, c).1.None? ==> Finalize(cfg, t, c).0 == t.rows
  {
  }
}
