/**
 * The Automobilista 2 reader: UDP datagrams in the Project CARS 2 format.
 * The socket calls are outside the model; what they did is a parameter.
 */
module Ams2Reader {
  import opened Common
  import opened ReaderData

  newtype byte = x: int | 0 <= x < 256

  const DefaultPort: nat := 9998
  /** The receive buffer size passed to `recvfrom`. */
  const PacketSize: nat := 1367
  /** Shorter packets are dropped before the header is read. */
  const MinPacketLength: nat := 10

  const PacketTypeTelemetry: byte := 0
  const PacketTypeRaceData: byte := 1
  const PacketTypeParticipants: byte := 2

  /** What `recvfrom(PACKET_SIZE)` gives back: bytes of a datagram, a timeout, or another socket error. */
  datatype Receive = Datagram(bytes: seq<byte>) | Timeout | SocketError

  /** A UDP receive into a buffer of `PacketSize` keeps at most that many leading bytes of the datagram. */
  function Received(datagram: seq<byte>): (data: seq<byte>)
    ensures |data| <= PacketSize
    ensures |data| <= |datagram| && data == datagram[..|data|]
    ensures |datagram| <= PacketSize ==> data == datagram
    ensures |datagram| > PacketSize ==> |data| == PacketSize
  {
    if |datagram| <= PacketSize then datagram else datagram[..PacketSize]
  }

  /** How `read_telemetry` treats a received packet. */
  datatype PacketKind = Undersized | TelemetryPacket | OtherPacket(packetType: byte)

  /** The length guard, then the discriminator in byte 0. */
  function Classify(data: seq<byte>): (k: PacketKind)
    ensures k == Undersized <==> |data| < MinPacketLength
    ensures k == TelemetryPacket <==> |data| >= MinPacketLength && data[0] == PacketTypeTelemetry
    ensures k.OtherPacket? ==> |data| >= MinPacketLength && k.packetType == data[0] != PacketTypeTelemetry
  {
    if |data| < MinPacketLength then Undersized
    else if data[0] == PacketTypeTelemetry then TelemetryPacket
    else OtherPacket(data[0])
  }

  /** Race-data and participant packets are recognised types that are nevertheless not parsed. */
  lemma RaceDataAndParticipantsNotParsed(data: seq<byte>)
    requires |data| >= MinPacketLength
    requires data[0] == PacketTypeRaceData || data[0] == PacketTypeParticipants
    ensures Classify(data) == OtherPacket(data[0])
  {
  }

  /** `_parse_telemetry_packet`: its parsing is not written yet, so it yields no frame. */
  function ParseTelemetryPacket(data: seq<byte>): (r: Option<UnifiedTelemetryData>)
    ensures r == None
  {
    None
  }

  /** The dispatch of `read_telemetry` on a received packet. */
  function Dispatch(data: seq<byte>): (r: Option<UnifiedTelemetryData>)
    ensures Classify(data) != TelemetryPacket ==> r == None
    ensures Classify(data) == TelemetryPacket ==> r == ParseTelemetryPacket(data)
  {
    match Classify(data)
    case TelemetryPacket => ParseTelemetryPacket(data)
    case _ => None
  }

  /** With the parser a stub, no packet of any length or type gives a frame. */
  lemma NoPacketYieldsFrame(datagram: seq<byte>)
    ensures Dispatch(Received(datagram)) == None
  {
  }

  /** The socket the reader holds: whether `bind` succeeded and whether it has been closed. */
  datatype Socket = Socket(bound: bool, closed: bool)

  /** `AMS2Reader`: the port and the socket field. */
  class Ams2Reader {
    const port: nat
    var socket: Option<Socket>

    constructor (port: nat := DefaultPort)
      ensures this.port == port && socket == None
    {
      this.port := port;
      socket := None;
    }

    /**
     * `connect()`. `createOk`: whether creating the socket succeeded;
     * `bindOk`: whether binding it to the port succeeded; `timeoutOk`:
     * whether setting the receive timeout succeeded. Any of them failing
     * returns false, but a socket once created stays in the field, bound
     * or not.
     */
    method Connect(createOk: bool, bindOk: bool, timeoutOk: bool) returns (ok: bool)
      modifies this
      ensures ok <==> createOk && bindOk && timeoutOk
      ensures !createOk ==> socket == old(socket)
      ensures createOk ==> socket == Some(Socket(bindOk, false))
    {
      if !createOk {
        return false;
      }
      socket := Some(Socket(false, false));
      if !bindOk {
        return false;
      }
      socket := Some(Socket(true, false));
      if !timeoutOk {
        return false;
      }
      return true;
    }

    /**
     * `read_telemetry()`, given what the receive call did. Timeouts and
     * socket errors are caught and read as `None`, like every other packet.
     */
    method ReadTelemetry(recv: Receive) returns (r: Option<UnifiedTelemetryData>)
      ensures socket == None ==> r == None
      ensures socket != None && recv.Datagram? ==> r == Dispatch(Received(recv.bytes))
      ensures !recv.Datagram? ==> r == None
      ensures r == None
    {
      if socket == None {
        return None;
      }
      match recv
      case Timeout => r := None;
      case SocketError => r := None;
      case Datagram(bytes) =>
        var data := Received(bytes);
        NoPacketYieldsFrame(bytes);
        r := Dispatch(data);
    }

    /** `disconnect()`: close the socket if there is one; the field keeps it. */
    method Disconnect()
      modifies this
      ensures old(socket) == None ==> socket == None
      ensures old(socket) != None ==> socket == Some(old(socket).value.(closed := true))
    {
      if socket != None {
        socket := Some(socket.value.(closed := true));
      }
    }
  }
}
