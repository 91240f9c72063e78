/** The OAuth consent round trip as one shared store: minting and reusing a generation, the browser's
    Slack identity hop, the single-use spend, and the callback's final credential transaction
    (src/core/consent.ts, src/adapters/slackVerify.ts, src/core/oauthCallback.ts). */
module ConsentModel {
  import opened Base
  import opened Fences

  datatype ConsentRow = ConsentRow(
    identity: Identity,
    provider: string,
    channel: Option<string>,
    createdAt: int,
    consumedAt: Option<int>,
    supersededAt: Option<int>,
    verifiedAt: Option<int>)

  /** Who a generation belongs to: at most one is unsuperseded per subject. */
  datatype Subject = Subject(team: string, user: string, provider: string)

  function SubjectOf(row: ConsentRow): Subject {
    Subject(row.identity.team, row.identity.user, row.provider)
  }

  function SubjectFor(i: Identity, provider: string): Subject {
    Subject(i.team, i.user, provider)
  }

  /** A stored user credential that has not lapsed. */
  datatype Connection = Connection(generation: Id, generationAt: int)

  /** The row a browser hop or a callback read, held while its network exchange runs. */
  datatype Claim = Claim(state: Id, row: ConsentRow)

  datatype Tables = Tables(
    now: int,
    minted: set<Id>,
    rows: map<Id, ConsentRow>,        // consent_request, by state
    live: map<Subject, Connection>,   // connection, user-owned
    tombs: Tombstones,
    hops: map<nat, Claim>,            // browser hops waiting for Slack's answer
    callbacks: map<nat, Claim>)       // callbacks waiting for the token exchange

  datatype Config = Config(providers: set<string>, digest: Digest)

  /** Either lifecycle fence blocks an issuance for this identity and provider. */
  predicate Fenced(cfg: Config, t: Tables, i: Identity, provider: string, issuedAt: int) {
    || Blocks(LatestOffboard(t.tombs, i), issuedAt)
    || Blocks(LatestRevocation(cfg.digest, t.tombs, UserOwner(i), provider), issuedAt)
  }

  // ---------------------------------------------------------------------------------------------
  // Minting and reusing a generation
  // ---------------------------------------------------------------------------------------------

  predicate ActiveFor(row: ConsentRow, s: Subject) {
    SubjectOf(row) == s && row.supersededAt.None?
  }

  ghost predicate HasActive(rows: map<Id, ConsentRow>, s: Subject) {
    exists state :: state in rows && ActiveFor(rows[state], s)
  }

  ghost function ActiveOf(rows: map<Id, ConsentRow>, s: Subject): (state: Id)
    requires HasActive(rows, s)
    ensures state in rows && ActiveFor(rows[state], s)
  {
    var state :| state in rows && ActiveFor(rows[state], s);
    state
  }

  function FreshConsent(i: Identity, provider: string, channel: Option<string>, issuedAt: int): ConsentRow {
    ConsentRow(i, provider, channel, issuedAt, None, None, None)
  }

  predicate ReusableConsent(cfg: Config, t: Tables, row: ConsentRow, i: Identity, channel: Option<string>) {
    && row.identity.enterprise == i.enterprise && row.channel == channel
    && row.consumedAt.None? && t.now - row.createdAt <= STATE_TTL
    && !Blocks(LatestOffboard(t.tombs, i), row.createdAt)
    && !Blocks(LatestRevocation(cfg.digest, t.tombs, UserOwner(i), row.provider), row.createdAt)
  }

  function Mint(t: Tables, rows: map<Id, ConsentRow>, row: ConsentRow, newId: Id): Tables {
    t.(rows := rows[newId := row], minted := t.minted + {newId})
  }

  function SupersedeRow(rows: map<Id, ConsentRow>, state: Id, at: int): map<Id, ConsentRow>
    requires state in rows
  {
    rows[state := rows[state].(supersededAt := Some(at))]
  }

  /** `beginFenced`: refuse a fenced issuance, reuse the live generation of the same context, refuse to let
      an older request replace a newer generation, else supersede and mint. */
  ghost function Begin(cfg: Config, t: Tables, i: Identity, provider: string, channel: Option<string>, issuedAt: int, newId: Id)
    : (r: (Tables, Option<Id>))
    ensures r.0 == t.(rows := r.0.rows, minted := r.0.minted) && t.minted <= r.0.minted
  {
    var row := FreshConsent(i, provider, channel, issuedAt);
    if Fenced(cfg, t, i, provider, issuedAt) then (t, None)
    else if HasActive(t.rows, SubjectFor(i, provider)) then
      var state := ActiveOf(t.rows, SubjectFor(i, provider));
      if ReusableConsent(cfg, t, t.rows[state], i, channel) then (t, Some(state))
      else if t.rows[state].createdAt > issuedAt || t.now - issuedAt > STATE_TTL then (t, None)
      else (Mint(t, SupersedeRow(t.rows, state, t.now), row, newId), Some(newId))
    else if t.now - issuedAt > STATE_TTL then (t, None)
    else (Mint(t, t.rows, row, newId), Some(newId))
  }

  // ---------------------------------------------------------------------------------------------
  // The browser identity hop
  // ---------------------------------------------------------------------------------------------

  predicate ActiveConsent(t: Tables, state: Id) {
    && state in t.rows && t.rows[state].supersededAt.None? && t.rows[state].consumedAt.None?
    && t.rows[state].createdAt >= t.now - STATE_TTL
  }

  /** Stamp a still-active consent; false when it was spent, replaced or expired since the hop began. */
  function MarkSlackVerified(t: Tables, state: Id): (r: (Tables, bool))
    ensures r.0 == t.(rows := r.0.rows)
  {
    if ActiveConsent(t, state) then (t.(rows := t.rows[state := t.rows[state].(verifiedAt := Some(t.now))]), true)
    else (t, false)
  }

  /** What Slack answered: an authorize error or no code, a failed exchange, or an identity. */
  datatype SlackAnswer = Cancelled | ExchangeRefused | SlackUser(team: string, sub: string)

  datatype HopResult = HopStale | HopIncomplete | HopFailed | HopMismatch | HopVerified

  // ---------------------------------------------------------------------------------------------
  // The single-use spend
  // ---------------------------------------------------------------------------------------------

  datatype ClaimStatus = Unavailable | ActiveClaim | Expired | Superseded | InvalidOffboarded | InvalidRevoked

  /** The newest fence that blocks this row, if any does. */
  function BlockingTime(cfg: Config, t: Tables, row: ConsentRow): Option<int> {
    var off := LatestOffboard(t.tombs, row.identity);
    var rev := LatestRevocation(cfg.digest, t.tombs, UserOwner(row.identity), row.provider);
    Newest(if Blocks(off, row.createdAt) then off else None, if Blocks(rev, row.createdAt) then rev else None)
  }

  function Classify(cfg: Config, t: Tables, row: ConsentRow): ClaimStatus {
    var off := LatestOffboard(t.tombs, row.identity);
    var block := BlockingTime(cfg, t, row);
    if block.Some? && !(row.supersededAt.Some? && row.supersededAt.value > block.value) then
      if Blocks(off, row.createdAt) then InvalidOffboarded else InvalidRevoked
    else if row.supersededAt.Some? then Superseded
    else if t.now - row.createdAt > STATE_TTL then Expired
    else ActiveClaim
  }

  function ConsumedRow(t: Tables, state: Id): ConsentRow
    requires state in t.rows
  {
    t.rows[state].(consumedAt := Some(t.now))
  }

  function ConsumeState(cfg: Config, t: Tables, state: Id): (r: (Tables, ClaimStatus))
    ensures r.0 == t.(rows := r.0.rows)
  {
    if state !in t.rows || t.rows[state].consumedAt.Some? then (t, Unavailable)
    else (t.(rows := t.rows[state := ConsumedRow(t, state)]), Classify(cfg, t, t.rows[state]))
  }

  predicate SlackMatches(row: ConsentRow, team: string, sub: string) {
    sub == row.identity.user && team == row.identity.team
  }

  /** The hop's second half, byte-exact against the row it read: a mismatch spends the state, a match
      stamps it. */
  function FinishHop(cfg: Config, t: Tables, hop: nat, answer: SlackAnswer): (r: (Tables, HopResult))
    requires hop in t.hops
    ensures r.0 == t.(rows := r.0.rows, hops := t.hops - {hop})
  {
    var c := t.hops[hop];
    var t1 := t.(hops := t.hops - {hop});
    match answer
    case Cancelled => (t1, HopIncomplete)
    case ExchangeRefused => (t1, HopFailed)
    case SlackUser(team, sub) =>
      if !SlackMatches(c.row, team, sub) then (ConsumeState(cfg, t1, c.state).0, HopMismatch)
      else
        var (t2, stamped) := MarkSlackVerified(t1, c.state);
        (t2, if stamped && c.row.provider in cfg.providers then HopVerified else HopStale)
  }

  // ---------------------------------------------------------------------------------------------
  // The provider callback
  // ---------------------------------------------------------------------------------------------

  datatype CallbackResult =
    | StateUnavailable | StateExpired | StateStale | SetupChanged(offboarded: bool) | IdentityUnverified
    | UserDenied | ExchangeFailed(transient: bool) | ConnectionFailed | Incomplete | Connected | AwaitingExchange

  /** RFC 6749 section 4.1.2.1: only these two redirect errors are retryable as they are. */
  predicate TransientError(error: string) {
    error == "server_error" || error == "temporarily_unavailable"
  }

  /** The branches between the spend and the token exchange, in the source's order. */
  function Route(cfg: Config, status: ClaimStatus, row: ConsentRow, error: Option<string>, hasCode: bool): CallbackResult {
    match status
    case Unavailable => StateUnavailable
    case Expired => StateExpired
    case Superseded => StateStale
    case InvalidOffboarded => SetupChanged(true)
    case InvalidRevoked => SetupChanged(false)
    case ActiveClaim =>
      if row.provider !in cfg.providers then StateStale
      else if row.verifiedAt.None? then IdentityUnverified
      else if error == Some("access_denied") then UserDenied
      else if error.Some? then ExchangeFailed(TransientError(error.value))
      else if !hasCode then Incomplete
      else AwaitingExchange
  }

  function StartCallback(cfg: Config, t: Tables, cb: nat, state: Option<Id>, error: Option<string>, hasCode: bool): (r: (Tables, CallbackResult))
    ensures r.0 == t.(rows := r.0.rows, callbacks := r.0.callbacks)
  {
    if state.None? || state.value !in t.rows then (t, StateUnavailable)
    else
      var (t1, status) := ConsumeState(cfg, t, state.value);
      var result := Route(cfg, status, t1.rows[state.value], error, hasCode);
      (if result == AwaitingExchange then t1.(callbacks := t1.callbacks[cb := Claim(state.value, t1.rows[state.value])]) else t1, result)
  }

  /** The callback's issuance inside the credential transaction: the exact still-current generation is
      deleted and its mint time used; a row that cleanup removed keeps its lifecycle verdict. */
  function Finalize(cfg: Config, t: Tables, c: Claim): (map<Id, ConsentRow>, Option<int>) {
    if c.state in t.rows && t.rows[c.state].supersededAt.None? && t.rows[c.state].consumedAt.Some?
       && SubjectOf(t.rows[c.state]) == SubjectOf(c.row)
    then (t.rows - {c.state}, Some(t.rows[c.state].createdAt))
    else (t.rows, if Fenced(cfg, t, c.row.identity, c.row.provider, c.row.createdAt) then Some(c.row.createdAt) else None)
  }

  datatype WriteResult = Stored | WriteStale | WriteOffboarded | WriteRevoked

  /** A committed write makes every unspent consent at or before its issuance obsolete. */
  function SupersedeUpTo(rows: map<Id, ConsentRow>, s: Subject, issuedAt: int, at: int): map<Id, ConsentRow> {
    map state | state in rows ::
      var row := rows[state];
      if ActiveFor(row, s) && row.consumedAt.None? && row.createdAt <= issuedAt then row.(supersededAt := Some(at)) else row
  }

  /** Vault's fence around every user-credential write, with the issuance already resolved. */
  function WriteUser(cfg: Config, t: Tables, i: Identity, provider: string, issuedAt: int, newId: Id): (r: (Tables, WriteResult))
    ensures r.0 == t.(rows := r.0.rows, live := r.0.live, minted := r.0.minted) && t.minted <= r.0.minted
  {
    var s := SubjectFor(i, provider);
    if Blocks(LatestOffboard(t.tombs, i), issuedAt) then (t, WriteOffboarded)
    else if Blocks(LatestRevocation(cfg.digest, t.tombs, UserOwner(i), provider), issuedAt) then (t, WriteRevoked)
    else if s in t.live && t.live[s].generationAt >= issuedAt then (t, WriteStale)
    else (t.(live := t.live[s := Connection(newId, t.now)], minted := t.minted + {newId},
             rows := SupersedeUpTo(t.rows, s, issuedAt, t.now)), Stored)
  }

  function CommitResult(w: WriteResult): CallbackResult {
    match w
    case Stored => Connected
    case WriteStale => StateStale
    case WriteOffboarded => SetupChanged(true)
    case WriteRevoked => SetupChanged(false)
  }

  /** The callback's second half. A failed exchange or a failed companion write commits nothing. */
  function CommitCallback(cfg: Config, t: Tables, cb: nat, exchanged: bool, newId: Id): (r: (Tables, CallbackResult))
    requires cb in t.callbacks
    ensures r.0 == t.(rows := r.0.rows, live := r.0.live, minted := r.0.minted, callbacks := t.callbacks - {cb}) && t.minted <= r.0.minted
  {
    var c := t.callbacks[cb];
    var t1 := t.(callbacks := t.callbacks - {cb});
    if !exchanged then (t1, ConnectionFailed)
    else
      var (rows, issuedAt) := Finalize(cfg, t, c);
      if issuedAt.None? then (t1, StateStale)
      else
        var (t2, w) := WriteUser(cfg, t1.(rows := rows), c.row.identity, c.row.provider, issuedAt.value, newId);
        (t2, CommitResult(w))
  }

  // ---------------------------------------------------------------------------------------------
  // The machine
  // ---------------------------------------------------------------------------------------------

  datatype Op =
    | Tick(d: nat)
    | BeginOp(identity: Identity, provider: string, channel: Option<string>, issuedAt: int, newId: Id)
    | ReadHop(hop: nat, state: Id)
    | FinishHopOp(hop: nat, answer: SlackAnswer)
    | StartOp(cb: nat, stateParam: Option<Id>, error: Option<string>, hasCode: bool)
    | CommitOp(cb: nat, exchanged: bool, newId: Id)
    | DirectWrite(identity: Identity, provider: string, issuedAt: int, newId: Id)
    | DropConnection(subject: Subject)
    | DeleteForUser(team: string, user: string)
    | DeleteForUserProvider(subject: Subject)
    | SweepStale(cutoff: int)
    | FenceTx(op: FenceOp)

  datatype Outcome = Silent | Begun(state: Option<Id>) | Hopped(hop: HopResult) | Called(call: CallbackResult) | Wrote(write: WriteResult)

  ghost function Apply(cfg: Config, t: Tables, op: Op): (Tables, Outcome)
    requires Enabled(t, op)
  {
    match op
    case Tick(d) => (t.(now := t.now + d), Silent)
    case BeginOp(i, p, ch, issuedAt, newId) => var r := Begin(cfg, t, i, p, ch, issuedAt, newId); (r.0, Begun(r.1))
    case ReadHop(h, state) => (if ActiveConsent(t, state) then t.(hops := t.hops[h := Claim(state, t.rows[state])]) else t, Silent)
    case FinishHopOp(h, answer) => var r := FinishHop(cfg, t, h, answer); (r.0, Hopped(r.1))
    case StartOp(cb, state, error, hasCode) => var r := StartCallback(cfg, t, cb, state, error, hasCode); (r.0, Called(r.1))
    case CommitOp(cb, exchanged, newId) => var r := CommitCallback(cfg, t, cb, exchanged, newId); (r.0, Called(r.1))
    case DirectWrite(i, p, issuedAt, newId) => var r := WriteUser(cfg, t, i, p, issuedAt, newId); (r.0, Wrote(r.1))
    case DropConnection(s) => (t.(live := t.live - {s}), Silent)
    case DeleteForUser(team, user) =>
      (t.(rows := map s | s in t.rows && !(t.rows[s].identity.team == team && t.rows[s].identity.user == user) :: t.rows[s]), Silent)
    case DeleteForUserProvider(subject) => (t.(rows := map s | s in t.rows && SubjectOf(t.rows[s]) != subject :: t.rows[s]), Silent)
    case SweepStale(cutoff) => (t.(rows := map s | s in t.rows && !(t.rows[s].createdAt < cutoff) :: t.rows[s]), Silent)
    case FenceTx(f) => (t.(tombs := FenceStep(cfg.digest, t.tombs, t.now, f).0), Silent)
  }

  /** Random states and generation ids are fresh; a process starts one callback under one name. */
  predicate Enabled(t: Tables, op: Op) {
    match op
    case BeginOp(_, _, _, _, newId) => newId !in t.minted
    case StartOp(cb, _, _, _) => cb !in t.callbacks
    case ReadHop(h, _) => h !in t.hops
    case FinishHopOp(h, _) => h in t.hops
    case CommitOp(cb, _, newId) => cb in t.callbacks && newId !in t.minted
    case DirectWrite(_, _, _, newId) => newId !in t.minted
    case _ => true
  }

  predicate Init(t: Tables) {
    t.minted == {} && t.rows == map[] && t.hops == map[] && t.callbacks == map[]
  }
}
