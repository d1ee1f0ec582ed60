/** Values shared by every part of the PacketNetwork model: the packet record,
    the observable outputs of the network object, inbound datagrams, outbound
    workers, and the collaborators whose code lives outside packetnetwork.cpp. */
module Types {

  datatype Option<+T> = None | Some(value: T)

  /** One byte of a QByteArray, read as unsigned. */
  type Byte = b: int | 0 <= b < 256

  /** A quint16 port number. */
  type Port = p: int | 0 <= p < 0x1_0000

  /** The implicit conversion of an int to quint16 (wrap-around modulo 2^16). */
  function Quint16(x: int): (p: Port)
    ensures 0 <= x < 0x1_0000 ==> p == x
    ensures (p - x) % 0x1_0000 == 0
  {
    x % 0x1_0000
  }

  /** The packet record. The timestamp and its display name are not modelled. */
  datatype Packet = Packet(
    tcpOrUdp: string,
    fromIP: string,
    toIP: string,
    port: int,
    fromPort: int,
    hexString: string,
    receiveBeforeSend: bool,
    delayAfterConnect: int,
    persistent: bool)

  /** What the network object does that an observer or a peer can see, in order. */
  datatype Output =
    | PacketSent(packet: Packet)                           // emit packetSent(packet)
    | DatagramWritten(data: seq<Byte>, host: string, port: Port) // udpSocket->writeDatagram
    | HandedOff(packet: Packet)                            // a PersistentConnection window takes the packet
    | SentAnother(worker: nat, packet: Packet)             // tcpthreadList[key]->sendAnother(packet)
    | WorkerStarted(worker: nat, packet: Packet)           // new TCPThread(packet) ... start()

  /** One pending datagram of the UDP socket: payload, sender address and port. */
  datatype Datagram = Datagram(data: seq<Byte>, sender: string, senderPort: Port)

  /** An outbound TCPThread, identified by a number; `running` is QThread::isRunning(). */
  datatype Worker = Worker(id: nat, running: bool)

  /** Code the core calls but does not define: the text of the table key built
      from `toIP + ":" + port`, the hex codec of Packet, and the field values of
      a default-constructed Packet. */
  datatype Externals = Externals(
    hashAddress: (string, int) -> string,
    byteArrayToHex: seq<Byte> -> string,
    getByteArray: string -> seq<Byte>,
    blank: Packet)
}
