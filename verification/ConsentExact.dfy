/** When each transaction of the consent round trip gives each of its answers, and exactly what it writes, in terms of
    the tables alone. */
module ConsentExact {
  import opened Base
  import opened Fences
  import opened ConsentModel
  import opened ConsentRuns

  // ---------------------------------------------------------------------------------------------
  // Initiation
  // ---------------------------------------------------------------------------------------------

  ghost predicate Belongs(row: ConsentRow, team: string, user: string, provider: string) {
    row.identity.team == team && row.identity.user == user && row.provider == provider
  }

  /** The user's unsuperseded generation for this provider, which is the only one. */
  ghost predicate OpenFor(rows: map<Id, ConsentRow>, state: Id, i: Identity, provider: string) {
    state in rows && Belongs(rows[state], i.team, i.user, provider) && rows[state].supersededAt.None?
  }

  /** Neither the identity nor its ownership for the provider was fenced at or after this instant. */
  ghost predicate Unfenced(cfg: Config, t: Tables, i: Identity, provider: string, at: int) {
    && Current(t.tombs, i, at)
    && !Blocks(LatestRevocation(cfg.digest, t.tombs, Owner(i.team, UserOwned, i.user), provider), at)
  }

  /** The generation still serves the same person in the same conversation. */
  ghost predicate StillOffered(cfg: Config, t: Tables, row: ConsentRow, i: Identity, provider: string, channel: Option<string>) {
    && row.identity == i && row.channel == channel && row.consumedAt.None? && t.now - row.createdAt <= STATE_TTL
    && Unfenced(cfg, t, i, provider, row.createdAt)
  }

  ghost predicate Recent(t: Tables, issuedAt: int) {
    t.now - issuedAt <= STATE_TTL
  }

  /** Nothing open stands in the way, or what does may be replaced: it is not newer than the request. */
  ghost predicate Replaces(cfg: Config, t: Tables, i: Identity, provider: string, channel: Option<string>, issuedAt: int) {
    forall s :: OpenFor(t.rows, s, i, provider) ==> !StillOffered(cfg, t, t.rows[s], i, provider, channel) && t.rows[s].createdAt <= issuedAt
  }

  /** Exactly when an initiation reuses, mints or refuses. */
  lemma BeginAnswers(cfg: Config, t: Tables, i: Identity, p: string, ch: Option<string>, issuedAt: int, newId: Id)
    requires Inv(t) && newId !in t.minted
    ensures var state := Begin(cfg, t, i, p, ch, issuedAt, newId).1;
      && (state == Some(newId) <==> Unfenced(cfg, t, i, p, issuedAt) && Recent(t, issuedAt) && Replaces(cfg, t, i, p, ch, issuedAt))
      && (forall s :: state == Some(s) && s != newId <==>
            s != newId && Unfenced(cfg, t, i, p, issuedAt) && OpenFor(t.rows, s, i, p) && StillOffered(cfg, t, t.rows[s], i, p, ch))
  {
    hide LatestOffboard, LatestRevocation, OneActive;
    OnlyOneOpen(t, i, p);
  }

  lemma OnlyOneOpen(t: Tables, i: Identity, p: string)
    requires Inv(t)
    ensures forall s :: OpenFor(t.rows, s, i, p) ==> HasActive(t.rows, SubjectFor(i, p)) && s == ActiveOf(t.rows, SubjectFor(i, p))
    ensures HasActive(t.rows, SubjectFor(i, p)) ==> OpenFor(t.rows, ActiveOf(t.rows, SubjectFor(i, p)), i, p)
  {
  }

  /** What a mint writes: one fresh row under the new state, and the user's open generation superseded now; every other row
      stays. No other answer writes. */
  lemma BeginWrites(cfg: Config, t: Tables, i: Identity, p: string, ch: Option<string>, issuedAt: int, newId: Id)
    requires Inv(t) && newId !in t.minted
    ensures var (t', state) := Begin(cfg, t, i, p, ch, issuedAt, newId);
      if state == Some(newId) then
        && t' == t.(rows := t'.rows, minted := t.minted + {newId}) && t'.rows.Keys == t.rows.Keys + {newId}
        && t'.rows[newId] == ConsentRow(i, p, ch, issuedAt, None, None, None)
        && forall s :: s in t.rows ==> t'.rows[s] == if OpenFor(t.rows, s, i, p) then t.rows[s].(supersededAt := Some(t.now)) else t.rows[s]
      else t' == t
  {
    hide LatestOffboard, LatestRevocation, OneActive, ReusableConsent, Fenced;
    OnlyOneOpen(t, i, p);
    assert newId !in t.rows;
  }

  // ---------------------------------------------------------------------------------------------
  // The identity hop and the spend
  // ---------------------------------------------------------------------------------------------

  ghost predicate Unspent(t: Tables, state: Id) {
    state in t.rows && t.rows[state].consumedAt.None?
  }

  /** Only the row of the state changes, and only these two marks of it. */
  ghost predicate OnlyMarked(t: Tables, t': Tables, state: Id, consumedAt: Option<int>, verifiedAt: Option<int>)
    requires state in t.rows
  {
    t'.rows == t.rows[state := t.rows[state].(consumedAt := consumedAt, verifiedAt := verifiedAt)]
  }

  /** A hop compares Slack's answer byte for byte with the row it read. A match stamps a state that is still open and
      recent, a mismatch spends one that is unspent, and everything else changes no row. */
  lemma HopExact(cfg: Config, t: Tables, hop: nat, answer: SlackAnswer)
    requires hop in t.hops
    ensures var (t', r) := FinishHop(cfg, t, hop, answer); var c := t.hops[hop];
      var same := answer.SlackUser? && answer.sub == c.row.identity.user && answer.team == c.row.identity.team;
      var open := Unspent(t, c.state) && t.rows[c.state].supersededAt.None? && t.now - t.rows[c.state].createdAt <= STATE_TTL;
      && (r == HopIncomplete <==> answer.Cancelled?)
      && (r == HopFailed <==> answer.ExchangeRefused?)
      && (r == HopMismatch <==> answer.SlackUser? && !same)
      && (r == HopVerified <==> same && open && c.row.provider in cfg.providers)
      && (r == HopStale <==> same && !(open && c.row.provider in cfg.providers))
      && (if same && open then OnlyMarked(t, t', c.state, None, Some(t.now))
          else if r == HopMismatch && Unspent(t, c.state) then OnlyMarked(t, t', c.state, Some(t.now), t.rows[c.state].verifiedAt)
          else t'.rows == t.rows)
      && t' == t.(rows := t'.rows, hops := t.hops - {hop})
  {
    hide Classify;
  }

  /** What a callback presented: nothing usable, or a state that it spends now, fenced, superseded, expired or active. */
  ghost predicate Presents(t: Tables, state: Option<Id>) {
    state.Some? && Unspent(t, state.value)
  }

  /** Any other error than the user's denial and the two retryable ones. */
  ghost predicate FinalError(error: Option<string>) {
    error.Some? && error.value != "access_denied" && error.value != "server_error" && error.value != "temporarily_unavailable"
  }

  /** The callback up to its exchange: which answer each state, error and code gets. A spent, unknown or missing state is
      unavailable; an inactive one answers by its class; an active one answers by provider, stamp, the user's denial,
      another error (transient for the two retryable ones), a missing code, in this order. */
  lemma CallbackExact(cfg: Config, t: Tables, cb: nat, state: Option<Id>, error: Option<string>, hasCode: bool)
    ensures var (t', r) := StartCallback(cfg, t, cb, state, error, hasCode);
      if !Presents(t, state) then r == StateUnavailable && t' == t
      else
        var row := t.rows[state.value]; var status := Classify(cfg, t, row); var active := status == ActiveClaim;
        var trusted := active && row.provider in cfg.providers && row.verifiedAt.Some?;
        && OnlyMarked(t, t', state.value, Some(t.now), row.verifiedAt)
        && r != StateUnavailable && !r.ConnectionFailed? && !r.Connected?
        && (r == StateExpired <==> status == Expired)
        && (r == StateStale <==> status == Superseded || (active && row.provider !in cfg.providers))
        && (r == SetupChanged(true) <==> status == InvalidOffboarded) && (r == SetupChanged(false) <==> status == InvalidRevoked)
        && (r == IdentityUnverified <==> active && row.provider in cfg.providers && row.verifiedAt.None?)
        && (r == UserDenied <==> trusted && error == Some("access_denied"))
        && (r == ExchangeFailed(true) <==> trusted && (error == Some("server_error") || error == Some("temporarily_unavailable")))
        && (r == ExchangeFailed(false) <==> trusted && FinalError(error))
        && (r == Incomplete <==> trusted && error.None? && !hasCode)
        && (r == AwaitingExchange <==> trusted && error.None? && hasCode)
        && t'.callbacks == (if r == AwaitingExchange then t.callbacks[cb := Claim(state.value, t'.rows[state.value])] else t.callbacks)
        && t' == t.(rows := t'.rows, callbacks := t'.callbacks)
  {
    hide LatestOffboard, LatestRevocation;
    if Presents(t, state) {
      NeverUnavailable(cfg, t, t.rows[state.value]);
      hide Classify;
      ErrorNames();
    }
  }

  lemma NeverUnavailable(cfg: Config, t: Tables, row: ConsentRow)
    ensures Classify(cfg, t, row) != Unavailable
  {
    hide LatestOffboard, LatestRevocation;
  }

  lemma ErrorNames()
    ensures "access_denied" != "server_error" && "access_denied" != "temporarily_unavailable" && "server_error" != "temporarily_unavailable"
  {
    assert |"access_denied"| == 13 && |"server_error"| == 12 && |"temporarily_unavailable"| == 23;
  }

  // ---------------------------------------------------------------------------------------------
  // Credential writes
  // ---------------------------------------------------------------------------------------------

  /** An unspent open consent of exactly this user and provider, minted at or before the issuance. */
  ghost predicate Obsolete(row: ConsentRow, i: Identity, provider: string, issuedAt: int) {
    Belongs(row, i.team, i.user, provider) && row.supersededAt.None? && row.consumedAt.None? && row.createdAt <= issuedAt
  }

  /** Exactly the obsolete rows are superseded, now; every other row, and every field of those, stays. */
  ghost predicate OnlySuperseded(a: map<Id, ConsentRow>, b: map<Id, ConsentRow>, i: Identity, provider: string, issuedAt: int, now: int) {
    && a.Keys == b.Keys
    && forall s :: s in a ==> b[s] == if Obsolete(a[s], i, provider, issuedAt) then a[s].(supersededAt := Some(now)) else a[s]
  }

  /** Exactly when a user-credential write stores, and what it changes: the writer's own connection, and the writer's own
      obsolete consents for this provider. Nobody else's connection or consent changes, and a refusal changes nothing. */
  lemma WriteExact(cfg: Config, t: Tables, i: Identity, p: string, issuedAt: int, newId: Id)
    ensures var (t', r) := WriteUser(cfg, t, i, p, issuedAt, newId); var s := Subject(i.team, i.user, p);
      && (r == Stored <==> Unfenced(cfg, t, i, p, issuedAt) && (s in t.live ==> t.live[s].generationAt < issuedAt))
      && (r == WriteOffboarded <==> !Current(t.tombs, i, issuedAt))
      && (r == WriteRevoked <==> Current(t.tombs, i, issuedAt) && !Unfenced(cfg, t, i, p, issuedAt))
      && if r == Stored then
           && t' == t.(rows := t'.rows, live := t.live[s := Connection(newId, t.now)], minted := t.minted + {newId})
           && OnlySuperseded(t.rows, t'.rows, i, p, issuedAt, t.now)
         else t' == t
  {
    hide LatestOffboard, LatestRevocation;
  }

  /** The claim's own row is still there, open and spent. */
  ghost predicate StillClaimed(t: Tables, c: Claim) {
    && c.state in t.rows && t.rows[c.state].supersededAt.None? && t.rows[c.state].consumedAt.Some?
    && Belongs(t.rows[c.state], c.row.identity.team, c.row.identity.user, c.row.provider)
  }

  /** The callback's credential transaction: it connects exactly when the exchange succeeded, its own row is still there, and
      the write is newer than every fence and the old generation; then it deletes that row and otherwise writes
      what a user write does. A row that went away answers by a fence at or after its mint, or as stale. */
  lemma CommitExact(cfg: Config, t: Tables, cb: nat, exchanged: bool, newId: Id)
    requires cb in t.callbacks
    ensures var (t', r) := CommitCallback(cfg, t, cb, exchanged, newId);
      var c := t.callbacks[cb]; var i := c.row.identity; var p := c.row.provider; var s := Subject(i.team, i.user, p);
      var claimed := StillClaimed(t, c); var at := if claimed then t.rows[c.state].createdAt else c.row.createdAt;
      && (r == Connected <==> exchanged && claimed && Unfenced(cfg, t, i, p, at) && (s in t.live ==> t.live[s].generationAt < at))
      && (r == ConnectionFailed <==> !exchanged)
      && (r == SetupChanged(true) <==> exchanged && !Current(t.tombs, i, at))
      && (r == SetupChanged(false) <==> exchanged && Current(t.tombs, i, at) && !Unfenced(cfg, t, i, p, at))
      && (r == StateStale <==> exchanged && Unfenced(cfg, t, i, p, at) && !(claimed && (s in t.live ==> t.live[s].generationAt < at)))
      && t' == t.(rows := t'.rows, live := t'.live, minted := t'.minted, callbacks := t.callbacks - {cb})
      && t'.live == (if r == Connected then t.live[s := Connection(newId, t.now)] else t.live)
      && if r == Connected then OnlySuperseded(t.rows - {c.state}, t'.rows, i, p, at, t.now)
         else t'.rows == if exchanged && claimed then t.rows - {c.state} else t.rows
  {
    hide LatestOffboard, LatestRevocation, WriteUser, Blocks;
    var c := t.callbacks[cb];
    var (rows, issuedAt) := Finalize(cfg, t, c);
    if exchanged && issuedAt.Some? {
      var t1 := t.(callbacks := t.callbacks - {cb}, rows := rows);
      WriteExact(cfg, t1, c.row.identity, c.row.provider, issuedAt.value, newId);
    }
  }

  // ---------------------------------------------------------------------------------------------
  // Who may change what
  // ---------------------------------------------------------------------------------------------

  /** The step is a mint that replaces this open generation of its own subject, or a stored write that makes it obsolete. */
  ghost predicate Supersedes(cfg: Config, t: Tables, op: Op, state: Id)
    requires Enabled(t, op) && state in t.rows
  {
    match op
    case BeginOp(i, p, _, _, newId) => Apply(cfg, t, op).1 == Begun(Some(newId)) && OpenFor(t.rows, state, i, p)
    case DirectWrite(i, p, issuedAt, _) => Apply(cfg, t, op).1 == Wrote(Stored) && Obsolete(t.rows[state], i, p, issuedAt)
    case CommitOp(cb, _, _) =>
      var c := t.callbacks[cb];
      && Apply(cfg, t, op).1 == Called(Connected) && c.state in t.rows
      && Obsolete(t.rows[state], c.row.identity, c.row.provider, t.rows[c.state].createdAt)
    case _ => false
  }

  /** A row is marked superseded exactly by such a step of its own subject, at that step's instant. */
  lemma SupersededExactly(cfg: Config, t: Tables, op: Op, state: Id)
    requires Inv(t) && Enabled(t, op) && state in t.rows && state in Apply(cfg, t, op).0.rows
    ensures var b := Apply(cfg, t, op).0.rows[state];
      b.supersededAt == if Supersedes(cfg, t, op, state) then Some(t.now) else t.rows[state].supersededAt
  {
    hide Begin, FinishHop, StartCallback, CommitCallback, WriteUser, FenceStep, OneActive, Unfenced, OpenFor, Obsolete;
    match op
    case BeginOp(i, p, ch, issuedAt, newId) => BeginWrites(cfg, t, i, p, ch, issuedAt, newId);
    case FinishHopOp(h, answer) => HopExact(cfg, t, h, answer);
    case StartOp(cb, s, error, hasCode) => StartSupersedesNone(cfg, t, cb, s, error, hasCode, state);
    case CommitOp(cb, exchanged, newId) => CommitExact(cfg, t, cb, exchanged, newId);
    case DirectWrite(i, p, issuedAt, newId) => WriteExact(cfg, t, i, p, issuedAt, newId);
    case _ =>
  }

  lemma StartSupersedesNone(cfg: Config, t: Tables, cb: nat, s: Option<Id>, error: Option<string>, hasCode: bool, state: Id)
    requires state in t.rows
    ensures var t' := StartCallback(cfg, t, cb, s, error, hasCode).0; state in t'.rows && t'.rows[state].supersededAt == t.rows[state].supersededAt
  {
    hide Classify, Route;
  }

  /** Over a run: a superseded row was superseded once, by a mint or a stored write of its own subject. */
  lemma {:induction false} SupersessionOf(cfg: Config, r: Run, i: nat, state: Id) returns (m: nat)
    requires ValidRun(cfg, r) && i <= |r.ops| && state in r.states[i].rows && r.states[i].rows[state].supersededAt.Some?
    ensures m < i && Enabled(r.states[m], r.ops[m]) && state in r.states[m].rows
    ensures Supersedes(cfg, r.states[m], r.ops[m], state)
    ensures r.states[i].rows[state].supersededAt == Some(r.states[m].now)
  {
    hide Apply, Supersedes, Inv, RowStep;
    assert i > 0 by {
      assert r.states[0].rows == map[];
    }
    RunInv(cfg, r, i - 1);
    assert StepOk(cfg, r, i - 1);
    RunRow(cfg, r, i - 1, state);
    NewRowIsOpen(r.states[i - 1], r.ops[i - 1], state, r.states[i].rows[state]);
    SupersededExactly(cfg, r.states[i - 1], r.ops[i - 1], state);
    if Supersedes(cfg, r.states[i - 1], r.ops[i - 1], state) {
      m := i - 1;
    } else {
      m := SupersessionOf(cfg, r, i - 1, state);
    }
  }

  lemma NewRowIsOpen(t: Tables, op: Op, state: Id, b: ConsentRow)
    requires RowStep(t, op, state, b)
    ensures b.supersededAt.Some? ==> state in t.rows
  {
  }

  /** The rows that a deletion takes: one user's, one subject's, or those minted before a cutoff; and a finished callback takes
      the row it still claims. */
  ghost predicate Deletes(t: Tables, op: Op, state: Id)
    requires Enabled(t, op) && state in t.rows
  {
    var row := t.rows[state];
    match op
    case DeleteForUser(team, user) => row.identity.team == team && row.identity.user == user
    case DeleteForUserProvider(s) => Belongs(row, s.team, s.user, s.provider)
    case SweepStale(cutoff) => row.createdAt < cutoff
    case CommitOp(cb, exchanged, _) => exchanged && t.callbacks[cb].state == state && StillClaimed(t, t.callbacks[cb])
    case _ => false
  }

  /** A row goes exactly when such a step takes it. */
  lemma DeletedExactly(cfg: Config, t: Tables, op: Op, state: Id)
    requires Inv(t) && Enabled(t, op) && state in t.rows
    ensures state in Apply(cfg, t, op).0.rows <==> !Deletes(t, op, state)
  {
    hide Begin, FinishHop, StartCallback, CommitCallback, WriteUser, FenceStep, OneActive, Unfenced, OpenFor, Obsolete, StillClaimed;
    match op
    case BeginOp(i, p, ch, issuedAt, newId) => BeginWrites(cfg, t, i, p, ch, issuedAt, newId);
    case FinishHopOp(h, answer) => HopExact(cfg, t, h, answer);
    case StartOp(cb, s, error, hasCode) => StartSupersedesNone(cfg, t, cb, s, error, hasCode, state);
    case CommitOp(cb, exchanged, newId) => CommitExact(cfg, t, cb, exchanged, newId);
    case DirectWrite(i, p, issuedAt, newId) => WriteExact(cfg, t, i, p, issuedAt, newId);
    case _ =>
  }

  /** A connection changes only by its own subject's stored write or callback, or by being dropped. */
  lemma ConnectionChanges(cfg: Config, t: Tables, op: Op, s: Subject)
    requires Enabled(t, op)
    ensures var t' := Apply(cfg, t, op).0;
      match op
      case DirectWrite(i, p, _, newId) =>
        Lookup(t'.live, s) == if s == Subject(i.team, i.user, p) && Apply(cfg, t, op).1 == Wrote(Stored) then Some(Connection(newId, t.now)) else Lookup(t.live, s)
      case CommitOp(cb, _, newId) =>
        var row := t.callbacks[cb].row;
        Lookup(t'.live, s) == if s == Subject(row.identity.team, row.identity.user, row.provider) && Apply(cfg, t, op).1 == Called(Connected)
                              then Some(Connection(newId, t.now)) else Lookup(t.live, s)
      case DropConnection(d) => Lookup(t'.live, s) == if s == d then None else Lookup(t.live, s)
      case _ => t'.live == t.live
  {
    hide Begin, FinishHop, StartCallback, CommitCallback, WriteUser, FenceStep, Unfenced, OnlySuperseded;
    match op
    case CommitOp(cb, exchanged, newId) => CommitExact(cfg, t, cb, exchanged, newId);
    case DirectWrite(i, p, issuedAt, newId) => WriteExact(cfg, t, i, p, issuedAt, newId);
    case _ =>
  }
}
