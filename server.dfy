/**
 * The server's receive loop, one datagram at a time, and its background
 * cleanup pass. Both act on one registry map; each call is one atomic step
 * (the source serialises them through a mutex).
 */
module Server {
  import opened Wrappers
  import opened Protocol
  import opened Registry

  predicate NoDuplicates(ids: seq<Uuid>)
  {
    forall i, j :: 0 <= i < j < |ids| ==> ids[i] != ids[j]
  }

  /** `ids` lists every key of `m` exactly once, in some order. */
  predicate IsListing(ids: seq<Uuid>, m: Clients)
  {
    && (forall id :: id in ids <==> id in m)
    && NoDuplicates(ids)
  }

  /** A listing has exactly as many entries as the registry has keys. */
  lemma {:induction false} ListingLength(ids: seq<Uuid>, keys: set<Uuid>)
    requires forall id :: id in ids <==> id in keys
    requires NoDuplicates(ids)
    ensures |ids| == |keys|
    decreases ids
  {
    if ids != [] {
      assert forall id :: id in ids[1..] <==> id in keys - {ids[0]};
      ListingLength(ids[1..], keys - {ids[0]});
    }
  }

  /** `keys().cloned().collect()`: the registry's identities, in unspecified order. */
  method CollectIds(m: Clients) returns (ids: seq<Uuid>)
    ensures IsListing(ids, m)
    ensures |ids| == |m|
  {
    ids := [];
    var rest := m.Keys;
    while rest != {}
      invariant rest <= m.Keys
      invariant forall id :: id in ids <==> id in m && id !in rest
      invariant NoDuplicates(ids)
      invariant |ids| + |rest| == |m|
      decreases |rest|
    {
      var id :| id in rest;
      ids := ids + [id];
      rest := rest - {id};
    }
  }

  /** Packet kinds the server never handles: they are logged and dropped. */
  predicate IsIgnored(kind: PacketType)
  {
    kind in {ConnectResponse, ClientListResponse, ClientInfoResponse, PingAck}
  }

  class UdpServer {
    /** The shared map from client identity to its record. */
    var clients: Clients

    constructor ()
      ensures clients == map[]
    {
      clients := map[];
    }

    /**
     * Handles one inbound datagram from `src`, already decoded (None when
     * the envelope does not decode). `now` is the instant the handler
     * samples and `freshId` the UUID it would mint for a ConnectRequest.
     * Returns the reply to send, if any.
     */
    method Dispatch(codec: Codec, inbound: Option<Packet>, src: SocketAddr, now: Instant, freshId: Uuid)
      returns (reply: Option<Datagram>)
      modifies this
      // every reply goes back to the datagram's source address
      ensures reply.Some? ==> reply.value.to == src
      // an undecodable datagram, or a kind the server does not serve: dropped
      ensures inbound.None? || IsIgnored(inbound.value.kind) ==>
        clients == old(clients) && reply.None?
      // ConnectRequest: a record under the fresh id (overwriting on a collision), reply the id
      ensures inbound.Some? && inbound.value.kind == ConnectRequest ==>
        && clients == old(clients)[freshId := ClientInfo(src, DeviceLabel(codec, inbound.value.payload), now)]
        && reply == Some(Datagram(Packet(ConnectResponse, codec.encodeId(freshId)), src))
      // ClientListRequest: map unchanged, reply lists every identity once
      ensures inbound.Some? && inbound.value.kind == ClientListRequest ==>
        && clients == old(clients)
        && reply.Some? && reply.value.packet.kind == ClientListResponse
        && exists ids :: reply.value.packet.payload == codec.encodeIds(ids) && IsListing(ids, clients)
      // ClientInfoRequest: map unchanged; a reply only for a decodable, known id
      ensures inbound.Some? && inbound.value.kind == ClientInfoRequest ==>
        && clients == old(clients)
        && var requested := codec.decodeId(inbound.value.payload);
           if requested.Some? && requested.value in clients then
             var info := clients[requested.value];
             reply == Some(Datagram(Packet(ClientInfoResponse, codec.encodeInfo((info.address, info.deviceType))), src))
           else
             reply.None?
      // Ping: refresh a known id, acknowledge even an unknown one; drop an undecodable one
      ensures inbound.Some? && inbound.value.kind == Ping ==>
        var pinged := codec.decodeId(inbound.value.payload);
        if pinged.Some? then
          && clients == Refresh(old(clients), pinged.value, now)
          && reply == Some(Datagram(Packet(PingAck, []), src))
        else
          clients == old(clients) && reply.None?
    {
      reply := None;
      if inbound.None? {
        return;
      }
      var packet := inbound.value;
      match packet.kind {
        case ConnectRequest =>
          var deviceType := DeviceLabel(codec, packet.payload);
          clients := clients[freshId := ClientInfo(src, deviceType, now)];
          reply := Some(Datagram(Packet(ConnectResponse, codec.encodeId(freshId)), src));
        case ClientListRequest =>
          var ids := CollectIds(clients);
          reply := Some(Datagram(Packet(ClientListResponse, codec.encodeIds(ids)), src));
        case ClientInfoRequest =>
          var requested := codec.decodeId(packet.payload);
          if requested.None? {
            return;
          }
          if requested.value in clients {
            var info := clients[requested.value];
            reply := Some(Datagram(Packet(ClientInfoResponse, codec.encodeInfo((info.address, info.deviceType))), src));
          }
        case Ping =>
          var pinged := codec.decodeId(packet.payload);
          if pinged.None? {
            return;
          }
          if pinged.value in clients {
            clients := clients[pinged.value := clients[pinged.value].(lastSeen := now)];
          }
          reply := Some(Datagram(Packet(PingAck, []), src));
        case _ =>
      }
    }

    /** One pass of the cleanup task, with `now` sampled under the lock. */
    method Sweep(now: Instant)
      modifies this
      ensures clients == Retain(old(clients), now)
      ensures forall id :: id in clients ==> IsAlive(clients[id], now)
      ensures |clients| <= |old(clients)|
    {
      SweepKeepsExactlyLive(clients, now);
      clients := Retain(clients, now);
    }
  }
}
