# UDP presence registry — Dafny model

A model of a small UDP rendezvous server and its scripted client.

The server keeps a map from client UUID to a record holding the client's
socket address, its device label and the instant it was last seen. Each
inbound datagram is classified by packet kind:

- ConnectRequest registers the sender under a freshly minted UUID.
- ClientListRequest returns every registered UUID.
- ClientInfoRequest returns one client's address and label.
- Ping refreshes a client's last-seen instant and is acknowledged with PingAck.

A background task sweeps out records not seen for 15 seconds.

The client connects with the label "Desktop", asks for the client list, and
asks for the details of the first listed client that is not itself.

Modules:

- `Protocol` (protocol.dfy): packet kinds, the packet envelope, socket
  addresses, and `Codec`, the serialisation library taken as uninterpreted
  function values (each decoder returns `None` on failure).
- `Registry` (registry.dfy): the client record, the age/TTL rule, the sweep
  (`Retain`) and the Ping refresh (`Refresh`) as functions on the map, with
  their properties as lemmas.
- `Server` (server.dfy): the class `UdpServer`, whose `clients` map is
  changed in place by `Dispatch` (one datagram) and `Sweep` (one cleanup
  pass), and `CollectIds`, the loop that collects the map's keys.
- `Client` (client.dfy): `RunClient`, the linear request script, run against
  the sequence of datagrams it receives, and `FirstOther`, the id selector.
- `Scenarios` (scenarios.dfy): end-to-end runs of the server that use only
  its contracts.

Time is a natural number of nanoseconds. `Instant::duration_since`
saturates at zero, and `Age` keeps that behaviour. In the program the
saturating branch never fires: the sweep samples its instant after taking
the lock (src/server.rs:34-35), and every insert (:77) and refresh (:155)
happens under that lock, so every stored `last_seen` precedes the sweep's
instant. The model treats `Dispatch` and `Sweep` as atomic steps whose `now`
values are not ordered against each other. A ConnectRequest samples its
instant before it takes the lock (src/server.rs:73 and :76), so instants do
not arrive in lock order either. With unordered instants the branch can
arise in the model.

Notes on the source:

- src/protocol.rs:4-11 declares no `Ping` or `PingAck` variants, yet
  src/server.rs:143 and :163 use both. The model's `PacketType` adds them.
- src/server.rs:68 labels a client "Unknown" only when the ConnectRequest
  payload is not valid UTF-8. An empty payload is valid UTF-8 and gives the
  empty label.
- src/client.rs sends no heartbeat (Ping). It ends the script when a reply
  has the wrong kind, without waiting for a further reply.

## Model

| member | source | states |
|---|---|---|
| `Server.UdpServer.constructor` | src/server.rs:25 | the registry starts empty |
| `Server.UdpServer.Dispatch` | src/server.rs:57-180 | per packet kind: ConnectRequest stores a record with the source address, the payload as label (or "Unknown" if it is not UTF-8) and `now` under the fresh id, overwriting any record with that id and leaving the others alone, and replies ConnectResponse carrying the id; ClientListRequest leaves the map unchanged and replies with an encoding of a duplicate-free list of exactly its keys; ClientInfoRequest leaves the map unchanged and replies with the address and label only for a decodable, registered id; Ping with a decodable id refreshes that id if known and always replies an empty PingAck, while an undecodable Ping is dropped; undecodable datagrams and the four reply kinds change nothing and get no reply; every reply goes to the source address |
| `Server.UdpServer.Sweep` | src/server.rs:34-47 | the map becomes exactly its live records, all of which are within the TTL of `now`, and it never grows |
| `Server.CollectIds` | src/server.rs:99 | the collected ids are exactly the map's keys, each once, as many as the map has entries |
| `Server.ListingLength` | src/server.rs:99 | a duplicate-free listing of a key set has as many entries as the set |
| `Registry.SweepKeepsExactlyLive` | src/server.rs:37-47 | a key survives the sweep iff it was present and its age is at most 15 s (so every survivor is within the TTL of the sweep's instant); survivors are unchanged; no key is added; the size after is at most the size before |
| `Registry.SweepEvictsStale` | src/server.rs:39-45 | a record last seen more than 15 s before `now` is removed |
| `Registry.SweepIdempotent` | src/server.rs:39-45 | sweeping twice at the same instant equals sweeping once |
| `Registry.SweepMonotoneInTime` | src/server.rs:39-45 | a sweep at a later instant keeps a subset of what an earlier one keeps |
| `Registry.RefreshOnlyTouchesTimestamp` | src/server.rs:152-159 | a Ping refresh keeps the key set and every other record, sets only the pinged record's `last_seen`, and is idempotent |
| `Registry.RefreshedSurvivesSweep` | src/server.rs:154-155 | a record refreshed at `seen` survives any sweep up to 15 s later, with that timestamp |
| `Client.FirstOther` | src/client.rs:69 | None iff every listed id is the client's own; otherwise an id other than its own, at a position before which only its own id occurs |
| `Client.RunClient` | src/client.rs:6-107 | 1 to 3 datagrams, all to 127.0.0.1:8080; first ConnectRequest "Desktop"; a ClientListRequest with empty payload iff the first reply is a ConnectResponse with a decodable id; a ClientInfoRequest for the first other listed id iff the second reply is a decodable ClientListResponse naming another id; the script waits iff fewer replies than datagrams sent arrived, panics iff the last reply read fails to decode where an `expect` is applied, and reports peer details iff the third reply is a decodable ClientInfoResponse |
| `Client.InfoTargetIsRegisteredPeer` | src/client.rs:60-75 | when the list reply encodes a listing of the registry, the info target is a registered client other than the requester, and there is no target iff no other client is registered |
| `Scenarios.ConnectListQueryScenario` | src/server.rs:66-169 | two connects register exactly both ids; the list names both; the lookup of B returns B's address and "Desktop" to A; the lookup of an unused id gets no reply; a Ping from an unused id is still acknowledged and registers nothing |
| `Scenarios.EvictionScenario` | src/server.rs:30-53 | a client pinged at `t` survives the sweep at `t` + 15 s and is evicted by a sweep at any later instant |

## Left out

- Socket I/O (`bind`, `send_to`, `recv_from`) is not modelled. Inbound datagrams arrive already decoded, as `Option<Packet>` plus a source address. Outbound datagrams are returned as values.
- The 2048-byte receive buffer is not modelled. Truncation of longer datagrams is not captured.
- I/O errors propagated by `?` are not modelled. In the source they end the server loop or the client script.
- bincode's byte format and the serde derives are not modelled. The `Codec` decoders and encoders are uninterpreted, so no byte-level round trip is proved. Where a property needs a decoder to invert an encoder, that is a precondition.
- `String::from_utf8` is the `Codec.decodeUtf8` function value. UTF-8 validity is not modelled.
- The tasks, the mutex and the 10-second `sleep` cadence of the cleanup loop are not modelled. `Dispatch` and `Sweep` are atomic steps on one shared map, in any interleaving.
- `Uuid::new_v4` randomness is not modelled: the minted id is the `freshId` parameter. Pairwise distinct identities cannot be proved without an assumption about that randomness. A collision overwrites the old record, as in the source.
- `Instant::now()` is the `now` parameter.
- All logging is left out, including the per-client listing at src/server.rs:94-97 and the debug line at src/client.rs:35 that logs `my_id` before it is set.
- The client's decoded peer details are logged in the source. Here they are returned in the outcome.
- src/main.rs (argument dispatch, logger setup) is not part of this model.
