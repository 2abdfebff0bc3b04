/** The cluster packet header, the byte buffers packets are written to and
    read from, and the application-data request packet: a header followed by
    the GUID of the requesting plugin and the GUID of the requested object. */
module ClusterPackets {
  import opened Bytes

  /** Four 32-bit fields: packet type, packet subtype, length, reserved. */
  const RIM_PACKET_HEAD_SIZE: nat := 16

  /** The numeric type codes come from Header.h, which is not part of this
      model. The values below stand in for them; nothing proved here depends
      on them beyond their fitting in 32 bits. */
  const RIM_PACKET: int := 1
  const RIM_APPDATA_REQ: int := 7

  /** Every packet starts with a header; `length` counts the header and the
      payload in bytes. */
  datatype Header = Header(packetType: int, packetSubType: int, length: int, reserved: int)
  {
    predicate WellFormed() {
      IsU32(packetType) && IsU32(packetSubType) && IsU32(length) && IsU32(reserved)
    }
  }

  /** What Header::serializeHeader produces: the four fields in order. */
  function HeaderBytes(h: Header): (b: seq<byte>)
    requires h.WellFormed()
    ensures |b| == RIM_PACKET_HEAD_SIZE
    ensures U32Value(b[0..4]) == h.packetType && U32Value(b[4..8]) == h.packetSubType
    ensures U32Value(b[8..12]) == h.length && U32Value(b[12..16]) == h.reserved
  {
    var b := U32Bytes(h.packetType) + U32Bytes(h.packetSubType) + U32Bytes(h.length) + U32Bytes(h.reserved);
    assert b[0..4] == U32Bytes(h.packetType);
    assert b[4..8] == U32Bytes(h.packetSubType);
    assert b[8..12] == U32Bytes(h.length);
    assert b[12..16] == U32Bytes(h.reserved);
    b
  }

  /** The header the request constructor builds. */
  function RequestHeader(): (h: Header)
    ensures h.WellFormed()
    ensures h.length == RIM_PACKET_HEAD_SIZE + GUID_SIZE + GUID_SIZE
  {
    Header(RIM_PACKET, RIM_APPDATA_REQ, RIM_PACKET_HEAD_SIZE + 16 + 16, 0)
  }

  /** The bytes of a serialised request: header, plugin GUID, object GUID. */
  function RequestBytes(h: Header, plugin: Guid, obj: Guid): seq<byte>
    requires h.WellFormed()
  {
    HeaderBytes(h) + plugin + obj
  }

  /** What parse reads from a reader positioned at `pos`: two GUIDs, the
      plugin GUID first. */
  function ParseGuids(data: seq<byte>, pos: nat): (r: (Guid, Guid))
    requires pos + GUID_SIZE + GUID_SIZE <= |data|
    ensures r.0 + r.1 == data[pos..pos + 32]
  {
    (data[pos..pos + 16], data[pos + 16..pos + 32])
  }

  /** The request packet's length field is the exact size of its bytes. */
  lemma RequestLengthMatches(plugin: Guid, obj: Guid)
    ensures |RequestBytes(RequestHeader(), plugin, obj)| == RequestHeader().length
  {
  }

  /** Reading after the header gives back both GUIDs in the order they were
      written. */
  lemma {:induction false} RequestRoundTrip(h: Header, plugin: Guid, obj: Guid)
    requires h.WellFormed()
    ensures |RequestBytes(h, plugin, obj)| == RIM_PACKET_HEAD_SIZE + 32
    ensures ParseGuids(RequestBytes(h, plugin, obj), RIM_PACKET_HEAD_SIZE) == (plugin, obj)
  {
    var b := RequestBytes(h, plugin, obj);
    assert b[16..32] == plugin;
    assert b[32..48] == obj;
  }

  /** A std::vector<vpr::Uint8> shared by reference between a packet and the
      writer that fills it. */
  class ByteVector {
    var bytes: seq<byte>

    constructor ()
      ensures bytes == []
    {
      bytes := [];
    }
  }

  /** vpr::BufferObjectWriter: writes at `curPos` into a shared byte vector,
      overwriting what is there and growing the vector at the end. */
  class BufferObjectWriter {
    const data: ByteVector
    var curPos: nat

    constructor (data: ByteVector)
      ensures this.data == data && curPos == 0
    {
      this.data := data;
      curPos := 0;
    }

    method WriteRaw(b: seq<byte>)
      requires curPos <= |data.bytes|
      modifies this, data
      ensures curPos == old(curPos) + |b|
      ensures data.bytes == old(data.bytes)[..old(curPos)] + b
                            + (if curPos <= |old(data.bytes)| then old(data.bytes)[curPos..] else [])
    {
      var end := curPos + |b|;
      var tail := if end <= |data.bytes| then data.bytes[end..] else [];
      data.bytes := data.bytes[..curPos] + b + tail;
      curPos := end;
    }
  }

  /** vpr::BufferObjectReader: reads a byte sequence from `curPos` on. */
  class BufferObjectReader {
    const data: seq<byte>
    var curPos: nat

    constructor (data: seq<byte>, pos: nat)
      ensures this.data == data && curPos == pos
    {
      this.data := data;
      curPos := pos;
    }

    /** vpr::GUID::readObject: the next 16 bytes. */
    method ReadGuid() returns (g: Guid)
      requires curPos + GUID_SIZE <= |data|
      modifies this
      ensures g == data[old(curPos)..old(curPos) + 16]
      ensures curPos == old(curPos) + 16
    {
      g := data[curPos..curPos + 16];
      curPos := curPos + 16;
    }
  }

  /** cluster::ApplicationDataRequest. */
  class ApplicationDataRequest {
    var header: Header
    var pluginId: Guid
    var id: Guid
    const packetWriter: BufferObjectWriter

    ghost predicate Valid()
      reads this
    {
      header.WellFormed()
    }

    /** The constructor stores the two GUIDs, builds the request header and
        serialises the packet. */
    constructor (pluginGuid: Guid, objectGuid: Guid)
      ensures Valid()
      ensures pluginId == pluginGuid && id == objectGuid
      ensures header == RequestHeader()
      ensures header.packetType == RIM_PACKET && header.packetSubType == RIM_APPDATA_REQ
      ensures header.reserved == 0 && header.length == RIM_PACKET_HEAD_SIZE + 16 + 16
      ensures fresh(packetWriter) && fresh(packetWriter.data)
      ensures packetWriter.data.bytes == RequestBytes(header, pluginId, id)
      ensures |packetWriter.data.bytes| == header.length
    {
      var v := new ByteVector();
      packetWriter := new BufferObjectWriter(v);
      pluginId := pluginGuid;
      id := objectGuid;
      header := Header(RIM_PACKET, RIM_APPDATA_REQ, RIM_PACKET_HEAD_SIZE + 16 + 16, 0);
      new;
      Serialize();
      RequestLengthMatches(pluginId, id);
    }

    /** Clears the writer's buffer, resets its position, then writes the
        header, the plugin GUID and the object GUID. The result depends only
        on the three fields, so serialising twice gives the same bytes. */
    method Serialize()
      requires Valid()
      modifies packetWriter, packetWriter.data
      ensures packetWriter.data.bytes == RequestBytes(header, pluginId, id)
      ensures packetWriter.curPos == |packetWriter.data.bytes|
    {
      packetWriter.data.bytes := [];
      packetWriter.curPos := 0;
      packetWriter.WriteRaw(HeaderBytes(header));
      packetWriter.WriteRaw(pluginId);
      packetWriter.WriteRaw(id);
      assert packetWriter.data.bytes == RequestBytes(header, pluginId, id);
    }

    /** Reads the plugin GUID, then the object GUID; the header is untouched. */
    method Parse(reader: BufferObjectReader)
      requires reader.curPos + GUID_SIZE + GUID_SIZE <= |reader.data|
      modifies this, reader
      ensures (pluginId, id) == ParseGuids(reader.data, old(reader.curPos))
      ensures reader.curPos == old(reader.curPos) + 32
      ensures header == old(header)
    {
      pluginId := reader.ReadGuid();
      id := reader.ReadGuid();
    }
  }
}
