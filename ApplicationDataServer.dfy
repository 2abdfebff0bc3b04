/** The master-side replicator of one application-owned object: it keeps a
    list of subscribed cluster nodes, a payload buffer that is rewritten for
    each update, and a data packet bound to that buffer. */
module AppDataServer {
  import opened Bytes
  import opened ClusterPackets

  /** The subtype code of a data packet is declared in Header.h, which is not
      part of this model; the value is a stand-in. */
  const RIM_DATA_PACKET: int := 8

  datatype Connection = Connected | Disconnected

  /** What one successful ClusterNode::send of the data packet delivers. */
  datatype DataMessage = DataMessage(header: Header, pluginId: Guid, objectId: Guid, payload: seq<byte>)

  /** The number of bytes a data message occupies on the wire. */
  function MessageSize(m: DataMessage): nat
  {
    RIM_PACKET_HEAD_SIZE + GUID_SIZE + GUID_SIZE + |m.payload|
  }

  /** The exact byte count of header plus payload is declared in the header. */
  ghost predicate LengthConsistent(m: DataMessage)
  {
    m.header.length == MessageSize(m)
  }

  /** One peer connection. Whether a send on it succeeds is decided by the
      network, which the caller of Send supplies. */
  class ClusterNode {
    const name: string
    var connected: Connection
    var delivered: seq<DataMessage>

    constructor (name: string)
      ensures this.name == name && connected == Connected && delivered == []
    {
      this.name := name;
      connected := Connected;
      delivered := [];
    }
  }

  /** cluster::DataPacket: a header, the two GUIDs and the payload vector,
      which it shares with the server's writer. */
  class DataPacket {
    var header: Header
    var headerBytes: seq<byte>
    const pluginId: Guid
    const objectId: Guid
    const data: ByteVector

    /** The DataPacket constructor is not part of this model; this one gives
        the header the length of the data as it is at construction. */
    constructor (pluginId: Guid, objectId: Guid, data: ByteVector)
      requires RIM_PACKET_HEAD_SIZE + 32 + |data.bytes| < U32_LIMIT
      ensures this.pluginId == pluginId && this.objectId == objectId && this.data == data
      ensures header == Header(RIM_PACKET, RIM_DATA_PACKET, RIM_PACKET_HEAD_SIZE + 32 + |data.bytes|, 0)
      ensures header.WellFormed() && headerBytes == HeaderBytes(header)
    {
      this.pluginId := pluginId;
      this.objectId := objectId;
      this.data := data;
      header := Header(RIM_PACKET, RIM_DATA_PACKET, RIM_PACKET_HEAD_SIZE + 32 + |data.bytes|, 0);
      new;
      headerBytes := HeaderBytes(header);
    }
  }

  /** Some send to `n` among the first |cs| attempts failed. */
  ghost predicate SendFailed(cs: seq<ClusterNode>, fails: seq<bool>, n: ClusterNode)
    requires |cs| == |fails|
  {
    exists i :: 0 <= i < |cs| && cs[i] == n && fails[i]
  }

  /** The number of successful sends to `n` among the attempts. */
  ghost function Successes(cs: seq<ClusterNode>, fails: seq<bool>, n: ClusterNode): nat
    requires |cs| == |fails|
    decreases |cs|
  {
    if cs == [] then 0
    else Successes(cs[..|cs| - 1], fails[..|fails| - 1], n)
         + (if cs[|cs| - 1] == n && !fails[|fails| - 1] then 1 else 0)
  }

  ghost function Repeat<T>(x: T, k: nat): (r: seq<T>)
    ensures |r| == k && forall j :: 0 <= j < k ==> r[j] == x
  {
    if k == 0 then [] else Repeat(x, k - 1) + [x]
  }

  /** With no node subscribed twice, the client at position i receives the
      update exactly once unless its own send failed, whatever happened to
      the other clients. */
  lemma {:induction false} SuccessesOfDistinct(cs: seq<ClusterNode>, fails: seq<bool>, i: nat)
    requires |cs| == |fails| && i < |cs|
    requires forall j, k :: 0 <= j < k < |cs| ==> cs[j] != cs[k]
    ensures Successes(cs, fails, cs[i]) == if fails[i] then 0 else 1
    ensures SendFailed(cs, fails, cs[i]) <==> fails[i]
    decreases |cs|
  {
    var last := |cs| - 1;
    if i == last {
      NoSuccessesWithout(cs[..last], fails[..last], cs[i]);
    } else {
      SuccessesOfDistinct(cs[..last], fails[..last], i);
      assert cs[last] != cs[i];
    }
  }

  lemma {:induction false} NoSuccessesWithout(cs: seq<ClusterNode>, fails: seq<bool>, n: ClusterNode)
    requires |cs| == |fails|
    requires forall j :: 0 <= j < |cs| ==> cs[j] != n
    ensures Successes(cs, fails, n) == 0
    decreases |cs|
  {
    if cs != [] {
      NoSuccessesWithout(cs[..|cs| - 1], fails[..|fails| - 1], n);
    }
  }

  /** Extending the attempts by the i-th one adds a failure exactly for the
      i-th node when its send fails, and a success exactly for it when its
      send does not. */
  lemma SendStep(cs: seq<ClusterNode>, fails: seq<bool>, i: nat)
    requires |cs| == |fails| && i < |cs|
    ensures forall n :: SendFailed(cs[..i + 1], fails[..i + 1], n) <==>
                        (SendFailed(cs[..i], fails[..i], n) || (n == cs[i] && fails[i]))
    ensures forall n :: Successes(cs[..i + 1], fails[..i + 1], n) ==
                        Successes(cs[..i], fails[..i], n) + (if cs[i] == n && !fails[i] then 1 else 0)
  {
    assert cs[..i + 1][..i] == cs[..i] && fails[..i + 1][..i] == fails[..i];
    forall n
      ensures SendFailed(cs[..i + 1], fails[..i + 1], n) <==>
              (SendFailed(cs[..i], fails[..i], n) || (n == cs[i] && fails[i]))
    {
      if SendFailed(cs[..i + 1], fails[..i + 1], n) {
        var j :| 0 <= j < i + 1 && cs[..i + 1][j] == n && fails[..i + 1][j];
        if j < i {
          assert cs[..i][j] == n && fails[..i][j];
        }
      }
      if SendFailed(cs[..i], fails[..i], n) {
        var j :| 0 <= j < i && cs[..i][j] == n && fails[..i][j];
        assert cs[..i + 1][j] == n && fails[..i + 1][j];
      }
      if n == cs[i] && fails[i] {
        assert cs[..i + 1][i] == n && fails[..i + 1][i];
      }
    }
  }

  /** cluster::ApplicationDataServer. */
  class ApplicationDataServer {
    const id: Guid
    const pluginGuid: Guid
    const deviceData: ByteVector
    const dataPacket: DataPacket
    const writer: BufferObjectWriter
    var clients: seq<ClusterNode>

    /** The packet and the writer are bound to the server's own buffer. */
    ghost predicate Valid()
      reads this, dataPacket, writer
    {
      && dataPacket.data == deviceData && writer.data == deviceData
      && dataPacket.pluginId == pluginGuid && dataPacket.objectId == id
      && dataPacket.header.WellFormed()
    }

    /** The message the data packet currently carries. */
    ghost function Message(): DataMessage
      reads this, dataPacket, deviceData
    {
      DataMessage(dataPacket.header, pluginGuid, id, deviceData.bytes)
    }

    constructor (guid: Guid, pluginGuid: Guid)
      ensures Valid()
      ensures id == guid && this.pluginGuid == pluginGuid
      ensures deviceData.bytes == [] && clients == []
      ensures fresh(deviceData) && fresh(dataPacket) && fresh(writer)
      ensures writer.curPos == 0 && LengthConsistent(Message())
    {
      id := guid;
      this.pluginGuid := pluginGuid;
      var v := new ByteVector();
      deviceData := v;
      dataPacket := new DataPacket(pluginGuid, guid, v);
      writer := new BufferObjectWriter(v);
      clients := [];
    }

    /** Attempts delivery to every client in list order. fails[i] is whether
        the i-th attempt throws; such a node is marked DISCONNECTED and the
        loop carries on. The client list itself is not changed. */
    method Send(fails: seq<bool>)
      requires |fails| == |clients|
      modifies set n | n in clients
      ensures clients == old(clients)
      ensures forall n :: n in clients ==>
                n.connected == (if SendFailed(clients, fails, n) then Disconnected else old(n.connected))
      ensures forall n :: n in clients ==>
                n.delivered == old(n.delivered) + Repeat(old(Message()), Successes(clients, fails, n))
    {
      ghost var msg := Message();
      var i := 0;
      while i < |clients|
        invariant 0 <= i <= |clients|
        invariant Message() == msg
        invariant forall n :: n in clients ==>
                    n.connected == (if SendFailed(clients[..i], fails[..i], n) then Disconnected else old(n.connected))
        invariant forall n :: n in clients ==>
                    n.delivered == old(n.delivered) + Repeat(msg, Successes(clients[..i], fails[..i], n))
      {
        var node := clients[i];
        SendStep(clients, fails, i);
        if fails[i] {
          node.connected := Disconnected;
        } else {
          node.delivered := node.delivered + [DataMessage(dataPacket.header, pluginGuid, id, deviceData.bytes)];
        }
        i := i + 1;
      }
      assert clients[..i] == clients && fails[..i] == fails;
    }

    /** Clears the buffer, lets the application object write itself (its
        bytes are `objectBytes`) and recomputes the header length, reduced to
        32 bits as Header::setPacketLength's vpr::Uint32 argument does. */
    method UpdateLocalData(objectBytes: seq<byte>)
      requires Valid()
      modifies deviceData, writer, dataPacket
      ensures Valid()
      ensures deviceData.bytes == objectBytes && writer.curPos == |objectBytes|
      ensures dataPacket.header == old(dataPacket.header).(length := ToU32(RIM_PACKET_HEAD_SIZE + 16 + 16 + |objectBytes|))
      ensures dataPacket.headerBytes == HeaderBytes(dataPacket.header)
      ensures RIM_PACKET_HEAD_SIZE + 32 + |objectBytes| < U32_LIMIT ==> LengthConsistent(Message())
      ensures clients == old(clients)
    {
      writer.data.bytes := [];
      writer.curPos := 0;
      writer.WriteRaw(objectBytes);
      dataPacket.header := dataPacket.header.(length := ToU32(RIM_PACKET_HEAD_SIZE + 16 + 16 + |deviceData.bytes|));
      dataPacket.headerBytes := HeaderBytes(dataPacket.header);
    }

    /** Appends exactly `node` at the end of the client list. */
    method AddClient(node: ClusterNode)
      modifies this`clients
      ensures clients == old(clients) + [node]
    {
      clients := clients + [node];
    }
  }
}
