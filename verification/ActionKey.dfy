/** The exact action an approval covers, its deduplication selector, and the raw-field match that every
    statement repeats after selecting by it (src/core/interaction.ts, src/core/approval.ts). */
module ActionKey {
  import opened Base
  import opened Framing

  datatype Grant = Once | Thread

  datatype ApprovalKey = ApprovalKey(
    team: string,
    user: string,              // the requester
    ownerKind: OwnerKind,      // the credential owner the call runs under
    ownerId: string,
    credential: Id,            // that owner's credential generation, or a session placeholder
    provider: string,
    method_: string,
    origin: string,
    host: string,
    path: string,
    queryHash: string,
    grant: Grant,
    channel: Option<string>,
    thread: Option<string>,
    governable: Option<string>,
    delegated: bool)
  {
    function Owner(): Owner {
      Base.Owner(team, ownerKind, ownerId)
    }
  }

  /** `null` and the empty string are the same stored value. */
  function Column(o: Option<string>): string {
    if o.None? then "" else o.value
  }

  function KindName(k: OwnerKind): string {
    if k == UserOwned then "user" else "channel"
  }

  function GrantName(g: Grant): string {
    if g == Once then "once" else "thread"
  }

  function Exact(k: ApprovalKey, field: string): string {
    if k.grant == Once then field else ""
  }

  function SelectorFields(k: ApprovalKey): seq<string> {
    [k.team, k.user, KindName(k.ownerKind), k.ownerId, k.credential, GrantName(k.grant),
     Exact(k, k.method_), Exact(k, k.origin), Exact(k, k.host), Exact(k, k.path), Exact(k, k.queryHash),
     Column(k.channel), Column(k.thread)]
  }

  /** The HMAC is taken as ideal: its value stands for its preimage. */
  function Selector(k: ApprovalKey): string {
    Frame(SelectorFields(k))
  }

  predicate SameAction(a: ApprovalKey, b: ApprovalKey) {
    a.method_ == b.method_ && a.origin == b.origin && a.host == b.host && a.path == b.path && a.queryHash == b.queryHash
  }

  /** What two keys must share for the selector not to tell them apart. */
  predicate SameSelected(a: ApprovalKey, b: ApprovalKey) {
    && a.team == b.team && a.user == b.user && a.ownerKind == b.ownerKind && a.ownerId == b.ownerId
    && a.credential == b.credential && a.grant == b.grant
    && (a.grant == Once ==> SameAction(a, b))
    && Column(a.channel) == Column(b.channel) && Column(a.thread) == Column(b.thread)
  }

  /** The statement's raw-field match of a stored row against a key. */
  predicate MatchesRow(row: ApprovalKey, k: ApprovalKey) {
    && row.team == k.team && row.user == k.user && row.ownerKind == k.ownerKind && row.ownerId == k.ownerId
    && row.credential == k.credential && row.provider == k.provider
    && (row.grant == Thread || SameAction(row, k))
    && row.grant == k.grant && Column(row.channel) == Column(k.channel) && Column(row.thread) == Column(k.thread)
    && Column(row.governable) == Column(k.governable) && row.delegated == k.delegated
  }

  lemma NamesDiffer()
    ensures KindName(UserOwned) != KindName(ChannelOwned) && GrantName(Once) != GrantName(Thread)
  {
    assert |"user"| != |"channel"| && |"once"| != |"thread"|;
  }

  /** Two keys have one selector iff they agree on every scope field, and for a `once` grant on every
      exact action field. */
  lemma SelectorExact(a: ApprovalKey, b: ApprovalKey)
    ensures Selector(a) == Selector(b) <==> SameSelected(a, b)
  {
    FrameInjective(SelectorFields(a), SelectorFields(b));
    NamesDiffer();
    var f, g := SelectorFields(a), SelectorFields(b);
    assert |f| == |g| == 13;
    if f == g {
      assert f[0] == g[0] && f[1] == g[1] && f[2] == g[2] && f[3] == g[3] && f[4] == g[4] && f[5] == g[5];
      assert f[6] == g[6] && f[7] == g[7] && f[8] == g[8] && f[9] == g[9] && f[10] == g[10];
      assert f[11] == g[11] && f[12] == g[12];
    }
  }

  /** The raw match refines the selector by exactly the three columns the selector leaves out. */
  lemma MatchRefinesSelector(row: ApprovalKey, k: ApprovalKey)
    ensures MatchesRow(row, k) <==>
      Selector(row) == Selector(k) && row.provider == k.provider
      && Column(row.governable) == Column(k.governable) && row.delegated == k.delegated
  {
    SelectorExact(row, k);
  }

  /** A `thread` selector ignores which call asked. */
  lemma ThreadSelectorIgnoresCall(a: ApprovalKey, b: ApprovalKey)
    requires a.grant == Thread && b == a.(method_ := b.method_, origin := b.origin, host := b.host, path := b.path, queryHash := b.queryHash)
    ensures Selector(a) == Selector(b) && MatchesRow(a, b)
  {
    SelectorExact(a, b);
  }

  method ApprovalActionKey(k: ApprovalKey) returns (digest: string)
    ensures digest == Selector(k)
  {
    digest := FeedFramed(SelectorFields(k));
  }
}
