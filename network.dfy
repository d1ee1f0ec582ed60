/** The PacketNetwork object: its member flags, the thread table, the UDP
    socket's pending queue and the log of what it emits and writes. Each slot
    is an imperative method proved against the functions of Config, Dispatch
    and Datagrams. */
module Network {
  import opened Types
  import opened Protocol
  import opened Config
  import opened Dispatch
  import opened Datagrams

  class PacketNetwork {
    const ext: Externals

    // member flags set by init
    var activateUDP: bool
    var activateTCP: bool
    var sendResponse: bool
    var responseData: string
    var receiveBeforeSend: bool
    var delayAfterConnect: int
    var persistentConnectCheck: bool

    // socket state: udpSocket->localPort(), isListening(), serverPort()
    var udpLocalPort: Port
    var listening: bool
    var tcpServerPort: Port

    // datagrams the UDP socket holds and has not yet handed out
    var pending: seq<Datagram>

    var tcpthreadList: Table
    // number given to the next TCPThread created
    var nextWorker: nat

    // everything emitted, written, started or handed off, in order
    var log: seq<Output>

    // init has run: the sockets exist and the member flags hold settings
    ghost var initialized: bool

    ghost predicate Valid()
      reads this
    {
      WellFormed(tcpthreadList, nextWorker)
    }

    /** The object before init: a server that is not listening and an empty
        thread table. The UDP socket does not exist yet and the member flags
        hold no settings, so every slot that uses them requires `initialized`;
        the values given to them here are placeholders. */
    constructor (ext: Externals)
      ensures this.ext == ext
      ensures !initialized && !listening
      ensures Valid()
      ensures tcpthreadList == map[] && nextWorker == 0 && log == [] && pending == []
    {
      initialized := false;
      this.ext := ext;
      activateUDP, activateTCP, sendResponse := false, false, false;
      responseData := "";
      receiveBeforeSend, delayAfterConnect, persistentConnectCheck := false, 0, false;
      udpLocalPort, listening, tcpServerPort := 0, false, 0;
      pending, tcpthreadList, nextWorker, log := [], map[], 0, [];
    }

    /** init: a fresh UDP socket bound on the configured port, the server
        listening on the configured TCP port unless it already listens, an
        empty thread table, and the member flags read from the settings. */
    method Init(settings: Settings, host: Host)
      modifies this`pending, this`tcpthreadList, this`udpLocalPort, this`listening, this`tcpServerPort
      modifies this`sendResponse, this`responseData, this`activateUDP, this`activateTCP
      modifies this`receiveBeforeSend, this`persistentConnectCheck, this`delayAfterConnect
      modifies this`initialized
      ensures initialized
      ensures Valid()
      ensures activateUDP == ReadSettings(settings).activateUDP
      ensures activateTCP == ReadSettings(settings).activateTCP
      ensures sendResponse == ReadSettings(settings).sendResponse
      ensures responseData == ReadSettings(settings).responseData
      ensures receiveBeforeSend == ReadSettings(settings).receiveBeforeSend
      ensures persistentConnectCheck == ReadSettings(settings).persistentConnectCheck
      ensures delayAfterConnect == ReadSettings(settings).delayAfterConnect
      ensures udpLocalPort == host.bindUdp(Quint16(ReadSettings(settings).udpPort))
      ensures !old(listening) ==>
        listening == (activateTCP && host.listenTcp(Quint16(ReadSettings(settings).tcpPort)).Some?)
      ensures !old(listening) && listening ==>
        tcpServerPort == host.listenTcp(Quint16(ReadSettings(settings).tcpPort)).value
      ensures old(listening) ==> listening == activateTCP && tcpServerPort == old(tcpServerPort)
      ensures tcpthreadList == map[] && pending == []
    {
      pending, tcpthreadList := [], map[];
      var f := ReadSettings(settings);
      OpenSockets(f, host);
      SetFlags(f);
      initialized := true;
    }

    /** The socket half of init: bind the new UDP socket, listen on the TCP
        port, and close the TCP server again when it is disabled. The server is
        the network object itself, so a listen while it already listens fails
        and leaves it on its old port. */
    method OpenSockets(f: Flags, host: Host)
      modifies this`udpLocalPort, this`listening, this`tcpServerPort
      ensures udpLocalPort == host.bindUdp(Quint16(f.udpPort))
      ensures !old(listening) ==> listening == (f.activateTCP && host.listenTcp(Quint16(f.tcpPort)).Some?)
      ensures !old(listening) && listening ==> tcpServerPort == host.listenTcp(Quint16(f.tcpPort)).value
      ensures old(listening) ==> listening == f.activateTCP && tcpServerPort == old(tcpServerPort)
    {
      udpLocalPort := host.bindUdp(Quint16(f.udpPort));
      if !listening {
        var bound := host.listenTcp(Quint16(f.tcpPort));
        listening := bound.Some?;
        tcpServerPort := if bound.Some? then bound.value else 0;
      }
      if !f.activateTCP {
        listening := false;  // close()
      }
    }

    /** The flag half of init: copy the settings into the member flags. */
    method SetFlags(f: Flags)
      modifies this`sendResponse, this`responseData, this`activateUDP, this`activateTCP
      modifies this`receiveBeforeSend, this`persistentConnectCheck, this`delayAfterConnect
      ensures activateUDP == f.activateUDP && activateTCP == f.activateTCP
      ensures sendResponse == f.sendResponse && responseData == f.responseData
      ensures receiveBeforeSend == f.receiveBeforeSend
      ensures persistentConnectCheck == f.persistentConnectCheck
      ensures delayAfterConnect == f.delayAfterConnect
    {
      sendResponse := f.sendResponse;
      responseData := f.responseData;
      activateUDP := f.activateUDP;
      activateTCP := f.activateTCP;
      receiveBeforeSend := f.receiveBeforeSend;
      persistentConnectCheck := f.persistentConnectCheck;
      delayAfterConnect := f.delayAfterConnect;
    }

    /** getUDPPort: the bound UDP port, or 0 when the UDP server is disabled. */
    function GetUDPPort(): (port: int)
      requires initialized
      reads this`initialized, this`activateUDP, this`udpLocalPort
      ensures activateUDP ==> port == udpLocalPort
      ensures !activateUDP ==> port == 0
    {
      if activateUDP then udpLocalPort else 0
    }

    /** getTCPPort: the listening port, or 0 when not listening. */
    function GetTCPPort(): (port: int)
      reads this`listening, this`tcpServerPort
      ensures listening ==> port == tcpServerPort
      ensures !listening ==> port == 0
    {
      if listening then tcpServerPort else 0
    }

    function Context(): SendContext
      requires initialized
      reads this`initialized, this`receiveBeforeSend, this`delayAfterConnect, this`persistentConnectCheck
      reads this`activateUDP, this`udpLocalPort
    {
      SendContext(Defaults(receiveBeforeSend, delayAfterConnect, persistentConnectCheck), GetUDPPort(), ext)
    }

    function DrainSettings(): DrainContext
      requires initialized
      reads this`initialized, this`activateUDP, this`udpLocalPort, this`sendResponse, this`responseData
    {
      DrainContext(GetUDPPort(), sendResponse, responseData, ext)
    }

    /** packetToSend: stamp the packet with the settings, then hand it off,
        reuse a running worker, start a TCP worker, or write a UDP datagram. */
    method PacketToSend(sendpacket: Packet)
      requires initialized && Valid()
      modifies this`tcpthreadList, this`nextWorker, this`log
      ensures Valid()
      ensures var r := Send(old(Context()), old(tcpthreadList), old(nextWorker), sendpacket);
        tcpthreadList == r.table && nextWorker == r.next && log == old(log) + r.out
    {
      ghost var c, t, next := Context(), tcpthreadList, nextWorker;
      ghost var r := Send(c, t, next, sendpacket);
      SendPreservesWellFormed(c, t, next, sendpacket);
      var p := sendpacket;
      p := p.(receiveBeforeSend := receiveBeforeSend);
      p := p.(delayAfterConnect := delayAfterConnect);
      p := p.(persistent := persistentConnectCheck);
      assert p == Stamp(sendpacket, c.defaults);

      if p.persistent && Upper(p.tcpOrUdp) == "TCP" {
        log := log + [HandedOff(p)];
        assert r == Step(t, next, [HandedOff(p)]);
        return;
      }

      var hashAddress := ext.hashAddress(p.toIP, p.port);
      assert hashAddress == KeyOf(c, sendpacket);
      if hashAddress !in tcpthreadList {
        tcpthreadList := tcpthreadList[hashAddress := None];
      }
      var entry := tcpthreadList[hashAddress];
      assert entry == Lookup(t, hashAddress);
      if entry.Some? {
        if entry.value.running {
          log := log + [SentAnother(entry.value.id, p)];
          assert r == Step(tcpthreadList, next, [SentAnother(entry.value.id, p)]);
          return;
        }
      }

      if Upper(p.tcpOrUdp) == "TCP" {
        var thread := Worker(nextWorker, true);
        nextWorker := nextWorker + 1;
        tcpthreadList := tcpthreadList[hashAddress := Some(thread)];
        log := log + [WorkerStarted(thread.id, p)];
        assert r == Step(tcpthreadList, nextWorker, [WorkerStarted(thread.id, p)]);
        return;
      }

      p := p.(fromIP := "You");
      if Upper(p.tcpOrUdp) == "UDP" {
        p := p.(fromPort := GetUDPPort());
        log := log + [DatagramWritten(ext.getByteArray(p.hexString), p.toIP, Quint16(p.port)), PacketSent(p)];
      }
    }

    /** readPendingDatagrams: drain the UDP socket, reporting every datagram
        and answering it when auto-response is on. */
    method ReadPendingDatagrams()
      requires initialized
      modifies this`pending, this`log
      ensures pending == []
      ensures log == old(log) + Drain(old(DrainSettings()), old(pending))
    {
      ghost var c := DrainSettings();
      ghost var consumed: seq<Datagram> := [];
      while pending != []
        invariant old(pending) == consumed + pending
        invariant DrainSettings() == c
        invariant log == old(log) + Drain(c, consumed)
        decreases |pending|
      {
        var d := pending[0];
        pending := pending[1..];
        ReactTo(d);
        DrainSnoc(c, consumed, d);
        consumed := consumed + [d];
      }
      assert consumed == old(pending);
    }

    /** The body of the drain loop for one datagram: report it as a packet
        from its sender to "You", then, with auto-response on, write the
        response bytes back to the sender and report that packet too. */
    method ReactTo(d: Datagram)
      requires initialized
      modifies this`log
      ensures log == old(log) + Reaction(DrainSettings(), d)
    {
      var udpPacket := ext.blank.(
        tcpOrUdp := "UDP",
        fromIP := d.sender,
        toIP := "You",
        port := GetUDPPort(),
        fromPort := d.senderPort,
        hexString := ext.byteArrayToHex(d.data));
      assert udpPacket == Received(DrainSettings(), d);
      log := log + [PacketSent(udpPacket)];

      if sendResponse {
        udpPacket := udpPacket.(
          tcpOrUdp := "UDP",
          fromIP := "You (Response)",
          toIP := d.sender,
          port := d.senderPort,
          fromPort := GetUDPPort(),
          hexString := responseData);
        assert udpPacket == Response(DrainSettings(), d);
        log := log + [DatagramWritten(ext.getByteArray(udpPacket.hexString), d.sender, d.senderPort), PacketSent(udpPacket)];
      }
    }

    /** The UDP socket's readyRead signal, connected to readPendingDatagrams
        only when the UDP server is enabled. */
    method OnReadyRead()
      requires initialized
      modifies this`pending, this`log
      ensures activateUDP ==> pending == [] && log == old(log) + Drain(old(DrainSettings()), old(pending))
      ensures !activateUDP ==> pending == old(pending) && log == old(log)
    {
      if activateUDP {
        ReadPendingDatagrams();
      }
    }

    /** The operating system queues a datagram on the UDP socket. */
    method DatagramArrives(d: Datagram)
      requires initialized
      modifies this`pending
      ensures pending == old(pending) + [d]
    {
      pending := pending + [d];
    }

    /** A TCPThread's run() returns: isRunning() is false from now on. */
    method ThreadFinished(id: nat)
      requires Valid()
      modifies this`tcpthreadList
      ensures Valid()
      ensures tcpthreadList == Finish(old(tcpthreadList), id)
    {
      FinishPreservesWellFormed(tcpthreadList, nextWorker, id);
      tcpthreadList := Finish(tcpthreadList, id);
    }
  }
}
