/** The configuration PacketNetwork::init reads, and what it makes of it. */
module Config {
  import opened Types

  /** The stored settings, already converted by toInt/toBool/toString; None
      where the key is absent. The key "sendReponse" keeps its spelling. */
  datatype Settings = Settings(
    udpPort: Option<int>,
    tcpPort: Option<int>,
    sendReponse: Option<bool>,
    responseHex: Option<string>,
    udpServerEnable: Option<bool>,
    tcpServerEnable: Option<bool>,
    attemptReceiveCheck: Option<bool>,
    persistentConnectCheck: Option<bool>,
    delayAfterConnectCheck: Option<bool>)

  const NoSettings := Settings(None, None, None, None, None, None, None, None, None)

  /** QSettings::value(key, default): the stored value, or the default when absent. */
  function ValueOr<T>(v: Option<T>, default: T): (r: T)
    ensures v.None? ==> r == default
    ensures v.Some? ==> r == v.value
  {
    match v
    case None => default
    case Some(x) => x
  }

  /** The member flags init derives from the settings. */
  datatype Flags = Flags(
    udpPort: int,
    tcpPort: int,
    sendResponse: bool,
    responseData: string,
    activateUDP: bool,
    activateTCP: bool,
    receiveBeforeSend: bool,
    persistentConnectCheck: bool,
    delayAfterConnect: int)

  function ReadSettings(s: Settings): (f: Flags)
    ensures f.delayAfterConnect == 500 <==> ValueOr(s.delayAfterConnectCheck, false)
    ensures f.delayAfterConnect == 0 <==> !ValueOr(s.delayAfterConnectCheck, false)
    ensures f.sendResponse == ValueOr(s.sendReponse, false)
    ensures f.activateUDP == ValueOr(s.udpServerEnable, true)
    ensures f.activateTCP == ValueOr(s.tcpServerEnable, true)
  {
    Flags(
      ValueOr(s.udpPort, 55056),
      ValueOr(s.tcpPort, 55056),
      ValueOr(s.sendReponse, false),
      ValueOr(s.responseHex, ""),
      ValueOr(s.udpServerEnable, true),
      ValueOr(s.tcpServerEnable, true),
      ValueOr(s.attemptReceiveCheck, false),
      ValueOr(s.persistentConnectCheck, false),
      if ValueOr(s.delayAfterConnectCheck, false) then 500 else 0)
  }

  /** With nothing stored, both servers are enabled on port 55056 and every
      send-behaviour flag is off. */
  lemma DefaultFlags()
    ensures ReadSettings(NoSettings) == Flags(55056, 55056, false, "", true, true, false, false, 0)
  {
  }

  /** The operating system's answer to bind and listen: the port a socket ends
      up on for a requested quint16 port (0 when bind fails), and the listening
      port or None when listen fails. */
  datatype Host = Host(
    bindUdp: Port -> Port,
    listenTcp: Port -> Option<Port>)
}
