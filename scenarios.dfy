/**
 * End-to-end runs of the server's state machine, showing that the contracts
 * of UdpServer alone determine the observable behaviour: registration,
 * listing, lookup, acknowledgement of unknown pings, and eviction.
 */
module Scenarios {
  import opened Wrappers
  import opened Protocol
  import opened Registry
  import opened Server
  import opened Client

  /**
   * Two clients connect with the label "Desktop"; A then lists, looks up B,
   * looks up an identity nobody holds, and pings with that identity.
   */
  method ConnectListQueryScenario(codec: Codec, addrA: SocketAddr, addrB: SocketAddr, idA: Uuid, idB: Uuid, stranger: Uuid, now: Instant)
    returns (listReply: Option<Datagram>, infoReply: Option<Datagram>, missReply: Option<Datagram>,
             pingReply: Option<Datagram>, registered: set<Uuid>)
    requires idA != idB && stranger != idA && stranger != idB
    requires codec.decodeUtf8(DesktopLabel) == Some("Desktop")
    requires codec.decodeId(codec.encodeId(idB)) == Some(idB)
    requires codec.decodeId(codec.encodeId(stranger)) == Some(stranger)
    ensures registered == {idA, idB}
    ensures listReply.Some? && listReply.value.to == addrA && listReply.value.packet.kind == ClientListResponse
    ensures exists ids :: listReply.value.packet.payload == codec.encodeIds(ids) && |ids| == 2 && idA in ids && idB in ids
    ensures infoReply == Some(Datagram(Packet(ClientInfoResponse, codec.encodeInfo((addrB, "Desktop"))), addrA))
    ensures missReply.None?
    ensures pingReply == Some(Datagram(Packet(PingAck, []), addrA))
  {
    var server := new UdpServer();
    var connectA := server.Dispatch(codec, Some(Packet(ConnectRequest, DesktopLabel)), addrA, now, idA);
    var connectB := server.Dispatch(codec, Some(Packet(ConnectRequest, DesktopLabel)), addrB, now, idB);
    assert server.clients.Keys == {idA, idB};
    listReply := server.Dispatch(codec, Some(Packet(ClientListRequest, [])), addrA, now, stranger);
    ghost var ids :| listReply.value.packet.payload == codec.encodeIds(ids) && IsListing(ids, server.clients);
    ListingLength(ids, server.clients.Keys);
    infoReply := server.Dispatch(codec, Some(Packet(ClientInfoRequest, codec.encodeId(idB))), addrA, now, stranger);
    missReply := server.Dispatch(codec, Some(Packet(ClientInfoRequest, codec.encodeId(stranger))), addrA, now, stranger);
    pingReply := server.Dispatch(codec, Some(Packet(Ping, codec.encodeId(stranger))), addrA, now, stranger);
    registered := server.clients.Keys;
  }

  /**
   * A client connects at `connected` and pings at `pinged`; a sweep exactly
   * one TTL after the ping keeps it, and any sweep at a `later` instant past
   * the TTL evicts it.
   */
  method EvictionScenario(codec: Codec, addr: SocketAddr, id: Uuid, connected: Instant, pinged: Instant, later: Instant)
    returns (keptAtTtl: bool, keptPastTtl: bool)
    requires codec.decodeId(codec.encodeId(id)) == Some(id)
    requires later > pinged + ClientTtl
    ensures keptAtTtl && !keptPastTtl
  {
    var server := new UdpServer();
    var connect := server.Dispatch(codec, Some(Packet(ConnectRequest, DesktopLabel)), addr, connected, id);
    var ack := server.Dispatch(codec, Some(Packet(Ping, codec.encodeId(id))), addr, pinged, id);
    server.Sweep(pinged + ClientTtl);
    keptAtTtl := id in server.clients;
    server.Sweep(later);
    keptPastTtl := id in server.clients;
  }
}
