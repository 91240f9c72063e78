/** Values shared by every table of the store: opaque ids, Slack identities, credential owners and
    the lifetimes that the source fixes as constants (all times are microseconds of the database clock). */
module Base {

  datatype Option<+T> = None | Some(value: T)

  /** A UUID or random OAuth state. Freshness is always stated against the ids minted so far. */
  type Id = string

  /** An enterprise id; the source refuses the empty string wherever one is used as a scope. */
  type EnterpriseId = e: string | e != "" witness "E"

  datatype Identity = Identity(enterprise: Option<EnterpriseId>, team: string, user: string)

  datatype OwnerKind = UserOwned | ChannelOwned

  datatype Owner = Owner(team: string, kind: OwnerKind, id: string)

  function UserOwner(i: Identity): Owner {
    Owner(i.team, UserOwned, i.user)
  }

  function ChannelOwner(team: string, channel: string): Owner {
    Owner(team, ChannelOwned, channel)
  }

  /** Who the agent acts as for one provider in one channel. */
  datatype ActsAs = Person | SharedChannel

  /** A (team, channel, provider) governance tuple. */
  datatype Tuple = Tuple(team: string, channel: string, provider: string)

  const MINUTE: int := 60 * 1_000_000
  const PENDING_TTL: int := 10 * MINUTE
  const STATE_TTL: int := 10 * MINUTE
  const DELIVERY_LEASE: int := 30_000_000
  const REDELIVERY_DEBOUNCE: int := 30_000_000
  const SESSION_IDLE_TTL: int := 30 * MINUTE
  const SESSION_MAX_TTL: int := 8 * 60 * MINUTE

  function Min(a: int, b: int): int {
    if a <= b then a else b
  }

  function Max(a: int, b: int): int {
    if a <= b then b else a
  }

  function Lookup<K, V>(m: map<K, V>, k: K): Option<V> {
    if k in m then Some(m[k]) else None
  }

  /** The newer of two optional timestamps (`ORDER BY created_at DESC LIMIT 1` over a union). */
  function Newest(a: Option<int>, b: Option<int>): Option<int> {
    match (a, b)
    case (None, _) => b
    case (_, None) => a
    case (Some(x), Some(y)) => Some(Max(x, y))
  }

  /** `ON CONFLICT ... SET created_at = GREATEST(old, new)`: a fence timestamp never moves back. */
  function Raise<K>(m: map<K, int>, k: K, t: int): map<K, int> {
    m[k := if k in m then Max(m[k], t) else t]
  }
}
