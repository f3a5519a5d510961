/**
 * The wire-level vocabulary shared by server and client: packet kinds, the
 * packet envelope, socket addresses, and the serialisation library seen
 * only through its interface.
 */
module Protocol {
  import opened Wrappers

  newtype byte = x: int | 0 <= x < 256

  /** A 128-bit UUID, the identity the server assigns to a client. */
  newtype Uuid = x: int | 0 <= x < 0x1_0000_0000_0000_0000_0000_0000_0000_0000

  newtype Port = x: int | 0 <= x < 0x1_0000

  /** A UDP socket address: the IP octets (4 for IPv4, 16 for IPv6) and a port. */
  datatype SocketAddr = SocketAddr(ip: seq<byte>, port: Port)

  /**
   * The message kinds. The enumeration in src/protocol.rs stops at
   * ClientInfoResponse, yet the server matches on Ping and PingAck; both are
   * added here so that the server's dispatch can be modelled at all.
   */
  datatype PacketType =
    | ConnectRequest
    | ConnectResponse
    | ClientListRequest
    | ClientListResponse
    | ClientInfoRequest
    | ClientInfoResponse
    | Ping
    | PingAck

  /** The envelope: a kind and a payload whose meaning depends on the kind. */
  datatype Packet = Packet(kind: PacketType, payload: seq<byte>)

  /** A packet handed to the socket together with its destination. */
  datatype Datagram = Datagram(packet: Packet, to: SocketAddr)

  /**
   * The sub-payload encoders and decoders (bincode for identities, identity
   * lists and address/label pairs; String::from_utf8 for the device label).
   * Their byte formats belong to foreign libraries, so the model takes them
   * as uninterpreted function values; a decode that fails yields None.
   */
  datatype Codec = Codec(
    encodeId: Uuid -> seq<byte>,
    decodeId: seq<byte> -> Option<Uuid>,
    encodeIds: seq<Uuid> -> seq<byte>,
    decodeIds: seq<byte> -> Option<seq<Uuid>>,
    encodeInfo: ((SocketAddr, string)) -> seq<byte>,
    decodeInfo: seq<byte> -> Option<(SocketAddr, string)>,
    decodeUtf8: seq<byte> -> Option<string>)
}
