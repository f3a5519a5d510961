/**
 * The client's fixed request script: connect, ask for the client list, and
 * ask for the details of the first listed client other than itself.
 */
module Client {
  import opened Wrappers
  import opened Protocol
  import opened Registry
  import opened Server

  /** 127.0.0.1:8080, the server address the client writes to. */
  const ServerAddr: SocketAddr := SocketAddr([127, 0, 0, 1], 8080)

  /** The bytes of "Desktop", the label the client connects with. */
  const DesktopLabel: seq<byte> := [0x44, 0x65, 0x73, 0x6B, 0x74, 0x6F, 0x70]

  /**
   * How the script ends: blocked in a receive that no datagram answers,
   * stopped by a failed `expect` on a decode, or returned normally, with the
   * peer's address and label when a ClientInfoResponse was decoded.
   */
  datatype ClientOutcome =
    | AwaitingReply
    | Panicked
    | Finished(info: Option<(SocketAddr, string)>)

  /** The first identity in `ids` that is not `me` (the iterator `find`). */
  function FirstOther(ids: seq<Uuid>, me: Uuid): (r: Option<Uuid>)
    ensures r.None? <==> forall i :: 0 <= i < |ids| ==> ids[i] == me
    ensures r.Some? ==> r.value != me && exists i :: 0 <= i < |ids| && ids[i] == r.value && forall j :: 0 <= j < i ==> ids[j] == me
  {
    if ids == [] then None
    else if ids[0] != me then Some(ids[0])
    else FirstOther(ids[1..], me)
  }

  /** The identity the first reply assigns, if it is a decodable ConnectResponse. */
  function AssignedId(codec: Codec, replies: seq<Option<Packet>>): Option<Uuid>
  {
    if |replies| >= 1 && replies[0].Some? && replies[0].value.kind == ConnectResponse
    then codec.decodeId(replies[0].value.payload)
    else None
  }

  /** The identity list the second reply carries, if it is a decodable ClientListResponse. */
  function ListedIds(codec: Codec, replies: seq<Option<Packet>>): Option<seq<Uuid>>
  {
    if |replies| >= 2 && replies[1].Some? && replies[1].value.kind == ClientListResponse
    then codec.decodeIds(replies[1].value.payload)
    else None
  }

  /** The identity the script asks about, if it gets that far. */
  function InfoTarget(codec: Codec, replies: seq<Option<Packet>>): Option<Uuid>
  {
    if AssignedId(codec, replies).Some? && ListedIds(codec, replies).Some?
    then FirstOther(ListedIds(codec, replies).value, AssignedId(codec, replies).value)
    else None
  }

  /**
   * Whether the `step`-th reply (counting from 0) makes an `expect` fail:
   * the envelope does not decode, or it has the awaited kind but its
   * payload does not decode.
   */
  predicate ReplyPanics(codec: Codec, step: nat, reply: Option<Packet>)
  {
    match reply
    case None => true
    case Some(p) =>
      || (step == 0 && p.kind == ConnectResponse && codec.decodeId(p.payload).None?)
      || (step == 1 && p.kind == ClientListResponse && codec.decodeIds(p.payload).None?)
      || (step == 2 && p.kind == ClientInfoResponse && codec.decodeInfo(p.payload).None?)
  }

  /**
   * Runs the script against the datagrams `replies` that arrive, in order,
   * and returns the datagrams it sends and how it ends.
   */
  method RunClient(codec: Codec, replies: seq<Option<Packet>>) returns (sent: seq<Datagram>, outcome: ClientOutcome)
    // everything goes to the server, at most three packets
    ensures 1 <= |sent| <= 3
    ensures forall i :: 0 <= i < |sent| ==> sent[i].to == ServerAddr
    // first a ConnectRequest labelled "Desktop"
    ensures sent[0].packet == Packet(ConnectRequest, DesktopLabel)
    // a ClientListRequest follows exactly when a ConnectResponse assigned an id
    ensures |sent| >= 2 <==> AssignedId(codec, replies).Some?
    ensures |sent| >= 2 ==> sent[1].packet == Packet(ClientListRequest, [])
    // a ClientInfoRequest follows exactly when the list names someone else
    ensures |sent| == 3 <==> InfoTarget(codec, replies).Some?
    ensures |sent| == 3 ==> sent[2].packet == Packet(ClientInfoRequest, codec.encodeId(InfoTarget(codec, replies).value))
    // the script waits for one reply per packet sent
    ensures outcome == AwaitingReply <==> |replies| < |sent|
    ensures outcome == Panicked <==> |replies| >= |sent| && ReplyPanics(codec, |sent| - 1, replies[|sent| - 1])
    // the peer's details are reported exactly when the third reply decodes to them
    ensures outcome.Finished? && outcome.info.Some? <==>
      && |sent| == 3 && |replies| >= 3 && replies[2].Some? && replies[2].value.kind == ClientInfoResponse
      && codec.decodeInfo(replies[2].value.payload).Some?
    ensures outcome.Finished? && outcome.info.Some? ==>
      |replies| >= 3 && replies[2].Some? && outcome.info == codec.decodeInfo(replies[2].value.payload)
  {
    outcome := Finished(None);
    sent := [Datagram(Packet(ConnectRequest, DesktopLabel), ServerAddr)];

    // wait for the ConnectResponse
    if |replies| < 1 {
      outcome := AwaitingReply;
      return;
    }
    var myId: Option<Uuid> := None;
    var response := replies[0];
    if response.None? {
      outcome := Panicked;
      return;
    }
    if response.value.kind == ConnectResponse {
      var id := codec.decodeId(response.value.payload);
      if id.None? {
        outcome := Panicked;
        return;
      }
      myId := Some(id.value);
    } else {
      return;
    }

    sent := sent + [Datagram(Packet(ClientListRequest, []), ServerAddr)];

    // wait for the ClientListResponse
    if |replies| < 2 {
      outcome := AwaitingReply;
      return;
    }
    var listReply := replies[1];
    if listReply.None? {
      outcome := Panicked;
      return;
    }
    if listReply.value.kind == ClientListResponse {
      var clientList := codec.decodeIds(listReply.value.payload);
      if clientList.None? {
        outcome := Panicked;
        return;
      }
      if myId.Some? {
        var target := FirstOther(clientList.value, myId.value);
        if target.Some? {
          sent := sent + [Datagram(Packet(ClientInfoRequest, codec.encodeId(target.value)), ServerAddr)];

          // wait for the ClientInfoResponse
          if |replies| < 3 {
            outcome := AwaitingReply;
            return;
          }
          var infoReply := replies[2];
          if infoReply.None? {
            outcome := Panicked;
            return;
          }
          if infoReply.value.kind == ClientInfoResponse {
            var info := codec.decodeInfo(infoReply.value.payload);
            if info.None? {
              outcome := Panicked;
              return;
            }
            outcome := Finished(info);
          }
        }
        // otherwise no other client is listed: nothing more is sent
      } else {
        // the connection branch above always sets myId
        assert false;
      }
    }
  }

  /**
   * When the list reply is the encoding of a listing of the registry, the
   * client asks about a registered client other than itself, and asks about
   * nobody exactly when no other client is registered.
   */
  lemma InfoTargetIsRegisteredPeer(codec: Codec, replies: seq<Option<Packet>>, ids: seq<Uuid>, registry: Clients)
    requires AssignedId(codec, replies).Some?
    requires |replies| >= 2 && replies[1] == Some(Packet(ClientListResponse, codec.encodeIds(ids)))
    requires codec.decodeIds(codec.encodeIds(ids)) == Some(ids)
    requires IsListing(ids, registry)
    ensures InfoTarget(codec, replies).Some? ==>
      InfoTarget(codec, replies).value in registry && InfoTarget(codec, replies).value != AssignedId(codec, replies).value
    ensures InfoTarget(codec, replies).None? <==> registry.Keys <= {AssignedId(codec, replies).value}
  {
  }
}
