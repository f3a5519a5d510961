/**
 * The server's client registry: the record kept per client, the liveness
 * rule, and the two ways the map changes besides insertion (refreshing a
 * record on Ping, and the periodic sweep).
 */
module Registry {
  import opened Protocol

  /** A monotonic clock sample, in nanoseconds since an arbitrary origin. */
  type Instant = nat

  const NanosPerSecond: nat := 1_000_000_000

  /** A record older than this is evicted by the sweep. */
  const ClientTtl: nat := 15 * NanosPerSecond

  /** What the server remembers about one connected client. */
  datatype ClientInfo = ClientInfo(address: SocketAddr, deviceType: string, lastSeen: Instant)

  type Clients = map<Uuid, ClientInfo>

  /**
   * `now.duration_since(earlier)`, which saturates at zero when `earlier`
   * is the later instant. The saturating branch arises only because the
   * model does not order the `now` of separate atomic steps.
   */
  function Age(now: Instant, earlier: Instant): nat
  {
    if earlier <= now then now - earlier else 0
  }

  predicate IsAlive(info: ClientInfo, now: Instant)
  {
    Age(now, info.lastSeen) <= ClientTtl
  }

  /** The map left by `retain` with the liveness closure, sampled at `now`. */
  function Retain(m: Clients, now: Instant): Clients
  {
    map id | id in m && IsAlive(m[id], now) :: m[id]
  }

  /** Setting `last_seen` of a known client; an unknown identity changes nothing. */
  function Refresh(m: Clients, id: Uuid, now: Instant): Clients
  {
    if id in m then m[id := m[id].(lastSeen := now)] else m
  }

  /** The device label of a ConnectRequest: its payload as text, else "Unknown". */
  function DeviceLabel(codec: Codec, payload: seq<byte>): string
  {
    match codec.decodeUtf8(payload)
    case Some(text) => text
    case None => "Unknown"
  }

  lemma {:induction false} SubsetCardinality<T>(a: set<T>, b: set<T>)
    requires a <= b
    ensures |a| <= |b|
    decreases b
  {
    if a != {} {
      var x :| x in a;
      SubsetCardinality(a - {x}, b - {x});
    }
  }

  /**
   * The sweep keeps exactly the live records, unchanged, and never adds a
   * key; so the registry never grows across a sweep.
   */
  lemma SweepKeepsExactlyLive(m: Clients, now: Instant)
    ensures forall id :: id in Retain(m, now) <==> id in m && IsAlive(m[id], now)
    ensures forall id :: id in Retain(m, now) ==> Retain(m, now)[id] == m[id]
    ensures Retain(m, now).Keys <= m.Keys
    ensures |Retain(m, now)| <= |m|
  {
    SubsetCardinality(Retain(m, now).Keys, m.Keys);
  }

  /** A record last seen more than the TTL before `now` is gone after the sweep. */
  lemma SweepEvictsStale(m: Clients, now: Instant, id: Uuid)
    requires id in m && m[id].lastSeen + ClientTtl < now
    ensures id !in Retain(m, now)
  {
  }

  /** A second sweep at the same instant removes nothing more. */
  lemma SweepIdempotent(m: Clients, now: Instant)
    ensures Retain(Retain(m, now), now) == Retain(m, now)
  {
  }

  /** A later sweep keeps no record that an earlier sweep would have removed. */
  lemma SweepMonotoneInTime(m: Clients, earlier: Instant, later: Instant)
    requires earlier <= later
    ensures Retain(m, later).Keys <= Retain(m, earlier).Keys
  {
  }

  /**
   * Refreshing never changes the key set nor any other record, and
   * refreshing twice at the same instant is the same as refreshing once.
   */
  lemma RefreshOnlyTouchesTimestamp(m: Clients, id: Uuid, now: Instant)
    ensures Refresh(m, id, now).Keys == m.Keys
    ensures forall k :: k in m && k != id ==> Refresh(m, id, now)[k] == m[k]
    ensures id in m ==> Refresh(m, id, now)[id] == ClientInfo(m[id].address, m[id].deviceType, now)
    ensures Refresh(Refresh(m, id, now), id, now) == Refresh(m, id, now)
  {
  }

  /** A record refreshed at `seen` survives every sweep up to the TTL later. */
  lemma RefreshedSurvivesSweep(m: Clients, id: Uuid, seen: Instant, now: Instant)
    requires id in m
    requires now <= seen + ClientTtl
    ensures id in Retain(Refresh(m, id, seen), now)
    ensures Retain(Refresh(m, id, seen), now)[id].lastSeen == seen
  {
  }
}
