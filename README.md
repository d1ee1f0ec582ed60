# PacketNetwork, modelled in Dafny

PacketSender's `PacketNetwork` object sits between the user interface and the
sockets. It does four things:

- `init` reads the stored settings, binds a UDP socket and a TCP server, and
  sets the member flags that shape every later send.
- `packetToSend` stamps each outgoing packet with those flags. It then picks
  exactly one route: hand the packet to a persistent-connection window, give it
  to the TCP worker already running for the same destination, start a new TCP
  worker, write it directly as a UDP datagram, or do nothing for any other
  protocol.
- `readPendingDatagrams` drains the UDP socket. Every datagram is reported
  through `packetSent`, addressed to "You". When auto-response is on, the
  configured response is also written back to the sender. That reply is
  reported through `packetSent` as well, from "You (Response)" to the sender's
  address and port.
- `debugQByteArray` renders the nonzero bytes of an array as
  `"\n<index>, 0x<hex>"` lines.

The project is layered as follows:

- `types.dfy` holds the shared values: the packet record, the observable
  outputs, datagrams, workers, and the collaborators defined outside the core.
- `protocol.dfy` holds the upper-case protocol tests.
- `numbers.dfy` holds `QString::number` for bases 10 and 16.
- `debug_format.dfy` holds `debugQByteArray`.
- `config.dfy` holds the settings and the flags derived from them.
- `dispatch.dfy` gives `packetToSend` as a function over the thread table.
- `datagrams.dfy` gives the drain as a function over the pending queue.
- `network.dfy` holds the `PacketNetwork` class. Its imperative methods update
  the member flags, the socket state, the thread table `tcpthreadList`, the
  socket's pending queue and an output log. Each method is proved to agree with
  the functions of `config.dfy`, `dispatch.dfy` and `datagrams.dfy`.

Everything the object does that someone outside can observe is appended, in
order, to the log as an `Output`:

- `PacketSent` is an emitted `packetSent` signal.
- `DatagramWritten` is a `writeDatagram` call.
- `HandedOff` means a persistent-connection window took the packet.
- `SentAnother` is a `sendAnother` call on a running worker.
- `WorkerStarted` means a new `TCPThread` was started.

`QHash::operator[]` inserts a null entry when the key is missing. The model
does the same: a lookup of a missing key adds `key -> None` to the table. The
properties are stated through `Lookup`, which reads "absent" and "null" alike.

The settings key `sendReponse` keeps the spelling it has in the program.

## Model

| member | source | states |
|---|---|---|
| Types.Quint16 | src/packetnetwork.cpp:281 | The port passed to writeDatagram is the int port converted to quint16: unchanged for 0..65535, otherwise congruent to it modulo 2^16. |
| Protocol.Upper | src/packetnetwork.cpp:232 | The model's upper-casing keeps the length and upper-cases every ASCII letter independently, which decides the comparisons with "TCP" and "UDP" as toUpper does. |
| Protocol.IsTcpCaseInsensitive | src/packetnetwork.cpp:232 | The TCP test holds exactly when the protocol is three characters long and they are t/T, c/C, p/P in that order. |
| Protocol.IsUdpCaseInsensitive | src/packetnetwork.cpp:277 | The UDP test holds exactly when the protocol is three characters long and they are u/U, d/D, p/P in that order. |
| Protocol.TcpAndUdpExclusive | src/packetnetwork.cpp:253-283 | No protocol string passes both the TCP test and the UDP test, so the TCP and UDP branches never both apply. |
| Numbers.Number | src/packetnetwork.cpp:213 | QString::number renders at least one character, and every character is a digit of the base. |
| Numbers.ParseNumber | src/packetnetwork.cpp:213 | Reading the digits of QString::number(n, base) back gives n, so the index and byte value are recoverable from each line. |
| Numbers.NumberInjective | src/packetnetwork.cpp:213 | Different numbers render to different texts in the same base. |
| Numbers.NumberNoLeadingZero | src/packetnetwork.cpp:213 | Zero is the single digit "0", and a positive number's text has no leading '0', so there is no padding. Together with ParseNumber, this fixes the text of every number. |
| DebugFormat.DebugQByteArray | src/packetnetwork.cpp:206-217 | The loop returns the lines of the nonzero bytes, in index order, and nothing for the zero bytes. |
| DebugFormat.AppendLine | src/packetnetwork.cpp:213 | Appending the pieces "\n", the index, ", 0x" and the hex byte one after the other appends exactly one line. |
| DebugFormat.NonzeroEntriesSound | src/packetnetwork.cpp:209-214 | Every rendered (index, byte) pair is a nonzero byte of the array, at that index. |
| DebugFormat.NonzeroEntriesComplete | src/packetnetwork.cpp:209-214 | Every nonzero byte of the array is rendered. |
| DebugFormat.NonzeroEntriesIncreasing | src/packetnetwork.cpp:209 | The lines come out in strictly increasing index order. |
| DebugFormat.DebugPrefixIsNonzeroLines | src/packetnetwork.cpp:207-215 | After the first n iterations, the text is exactly the lines of the nonzero bytes below n. |
| DebugFormat.LineHasOneNewline | src/packetnetwork.cpp:213 | Each line starts with a line break and contains no other. |
| DebugFormat.DebugTextNewlines | src/packetnetwork.cpp:206-217 | The result has exactly one line break per nonzero byte. |
| Config.ValueOr | src/packetnetwork.cpp:85-99 | A setting reads as its stored value when present and as the given default when absent. |
| Config.ReadSettings | src/packetnetwork.cpp:85-103 | delayAfterConnect is 500 exactly when delayAfterConnectCheck is set, and 0 otherwise. Auto-response defaults to off, and both servers default to on. |
| Config.DefaultFlags | src/packetnetwork.cpp:85-103 | With nothing stored, both ports are 55056, both servers are enabled, and auto-response, receive-before-send, persistent connections and the delay are all off. |
| Datagrams.Reaction | src/packetnetwork.cpp:168-197 | One datagram produces 3 outputs with auto-response on and 1 without. |
| Datagrams.ReactionShape | src/packetnetwork.cpp:168-197 | The datagram is reported first, from its sender to "You" on the UDP port, with its bytes as hex. With auto-response on, the response bytes are then written to the sender's address and port, and reported as from "You (Response)". |
| Datagrams.DrainSnoc | src/packetnetwork.cpp:156-202 | Draining one more datagram appends exactly that datagram's outputs. |
| Datagrams.DrainLength | src/packetnetwork.cpp:156-202 | Draining k datagrams produces 3k outputs with auto-response on and k without. |
| Datagrams.DrainAt | src/packetnetwork.cpp:156-202 | The outputs of the i-th datagram sit in one contiguous block at position Width*i, in arrival order. |
| Datagrams.ReactionCounts | src/packetnetwork.cpp:181-195 | One datagram causes two packetSent signals and one write with auto-response on, and one signal and no write without. |
| Datagrams.DrainCounts | src/packetnetwork.cpp:156-202 | Draining k datagrams emits 2k packetSent signals and k writes with auto-response on, and k signals and no write without. |
| Dispatch.SendIgnoresCallerFlags | src/packetnetwork.cpp:228-230 | The caller's receiveBeforeSend, delayAfterConnect and persistent fields have no effect on anything packetToSend does. |
| Dispatch.SendStampsDefaults | src/packetnetwork.cpp:228-230 | Every packet that leaves packetToSend carries the network's three flags, and the caller's destination, port, protocol and payload. |
| Dispatch.SendPersistentTcp | src/packetnetwork.cpp:232-239 | A persistent TCP packet is only handed off: the table, the worker count and everything else stay unchanged. |
| Dispatch.SendReusesRunningWorker | src/packetnetwork.cpp:241-247 | If a running worker holds the packet's key, it receives the packet, whatever the protocol, unless it is a persistent TCP packet. No worker is started and no entry changes. |
| Dispatch.SendStartsTcpWorker | src/packetnetwork.cpp:253-268 | A non-persistent TCP packet with no running worker at its key starts worker `next`, which takes the key. Every other entry is unchanged, and the key set gains only that key. |
| Dispatch.SendUdpDirect | src/packetnetwork.cpp:273-283 | A UDP packet with no running worker at its key is written once, to toIP at its port as quint16. It is then reported once, as from "You" on the UDP port. No worker is started and no entry changes. |
| Dispatch.SendOtherProtocol | src/packetnetwork.cpp:249-285 | Any other protocol with no running worker at its key emits and writes nothing, and changes no entry. |
| Dispatch.SendGrows | src/packetnetwork.cpp:241-268 | packetToSend never removes a key and never turns a worker entry back into null, and the worker count never decreases. |
| Dispatch.SendPreservesWellFormed | src/packetnetwork.cpp:241-268 | Worker numbers stay below the count, and no worker is indexed under two keys. |
| Dispatch.SendAllGrows | src/packetnetwork.cpp:241-268 | The same holds over any sequence of sends. |
| Dispatch.SendAllPreservesWellFormed | src/packetnetwork.cpp:241-268 | The table invariant holds after any sequence of sends. |
| Dispatch.SendCountsWorker | src/packetnetwork.cpp:253-267 | The worker count goes up by one exactly when a worker is started. |
| Dispatch.SendAllCountsWorkers | src/packetnetwork.cpp:253-267 | Over any sequence of sends, the worker count grows by the number of workers started. |
| Dispatch.PersistentNeverStartsWorkers | src/packetnetwork.cpp:232-247 | With persistent connections on, no sequence of sends starts a worker or changes what any entry reads. |
| Dispatch.SecondTcpPacketReusesWorker | src/packetnetwork.cpp:241-268 | Two TCP packets to one destination start one worker, and the second packet goes to it while it runs. |
| Dispatch.Finish | src/packetnetwork.cpp:243 | A finished worker stays under the same keys with isRunning() false, and every other entry is unchanged. |
| Dispatch.FinishPreservesWellFormed | src/packetnetwork.cpp:243 | A worker finishing keeps the table invariant. |
| Dispatch.FinishedWorkerNotReused | src/packetnetwork.cpp:242-268 | A worker whose finish is recorded before the send is never given the packet. A TCP packet for its key starts a fresh worker with a new number in its place. |
| Network.PacketNetwork.constructor | src/packetnetwork.cpp:21-24 | A new object keeps the externals it is given, is not yet initialised and not listening, and its thread table is empty. Every slot that uses the UDP socket or the member flags requires init to have run first. |
| Network.PacketNetwork.Init | src/packetnetwork.cpp:72-126 | From any state, init empties the thread table and pending queue, sets every member flag from the settings, and binds UDP on the configured port. A server that was not listening listens exactly when TCP is enabled and listen succeeded. A server that was already listening keeps its old port, and is closed when TCP is disabled. |
| Network.PacketNetwork.OpenSockets | src/packetnetwork.cpp:87-124 | The UDP socket is bound whatever the UDP setting. The server listens on the configured port unless it already listens, in which case listen fails and the old port stays. It is closed when TCP is disabled. |
| Network.PacketNetwork.SetFlags | src/packetnetwork.cpp:94-103 | Each member flag takes the value derived from its setting. |
| Network.PacketNetwork.GetUDPPort | src/packetnetwork.cpp:131-139 | The bound UDP port when the UDP server is enabled, and 0 otherwise. |
| Network.PacketNetwork.GetTCPPort | src/packetnetwork.cpp:141-150 | The listening port when listening, and 0 otherwise. |
| Network.PacketNetwork.PacketToSend | src/packetnetwork.cpp:225-285 | The new table, worker count and log are exactly what the dispatch function gives for the current flags and table, and the table invariant is kept. |
| Network.PacketNetwork.ReadPendingDatagrams | src/packetnetwork.cpp:153-203 | The loop empties the pending queue. It appends exactly the drain function's outputs for the datagrams pending when the loop starts, datagram by datagram in arrival order. |
| Network.PacketNetwork.ReactTo | src/packetnetwork.cpp:168-197 | One loop iteration appends that datagram's outputs. |
| Network.PacketNetwork.OnReadyRead | src/packetnetwork.cpp:107-114 | readyRead drains the socket only when the UDP server is enabled. Otherwise the queue and the log are untouched. |
| Network.PacketNetwork.DatagramArrives | src/packetnetwork.cpp:156-163 | A datagram arriving joins the end of the pending queue. |
| Network.PacketNetwork.ThreadFinished | src/packetnetwork.cpp:243 | When a worker finishes, the table becomes the finished table and its invariant holds. |

## Left out

- Timestamps and the packet `name` derived from them are not modelled, since they come from the clock.
- The `QApplication::processEvents()` call in packetToSend (src/packetnetwork.cpp:271) is not modelled. It runs after the table lookup and before the UDP write, and there it can run other pending slots: a readyRead drain, a worker's queued packetSent echo, or a re-entrant packetToSend. Their outputs would then land between this send's lookup and its UDP outputs, and could change the table under it. The model's `log == old(log) + r.out` takes one send's outputs to be contiguous and its lookup to still hold when it writes.
- Sockets are not modelled as I/O. Binding and listening are a `Host` parameter that says which port each call ends up on. Incoming datagrams are a queue fed by `DatagramArrives`. Writes are log entries. Whether a write succeeds is not modelled, and neither is an unparsable destination address.
- `TCPThread` and the persistent-connection window are not part of this model. A worker is a number plus its `isRunning()` flag, and `ThreadFinished` stands for the thread's `run()` returning. What the worker or window does with the packet is not modelled.
- The signal/slot wiring of `packetSentECHO`, `packetReceivedECHO` and `toStatusBarECHO` is not modelled: they re-emit what a worker emits. The same goes for `incomingConnection`, `newSession`, `kill` and `disconnected`. The accept side of the TCP server is not part of this model.
- Reading the settings file is not modelled, and neither is the conversion of its stored strings by `toInt`/`toBool`. A `Settings` value holds the already-converted values, or None for an absent key.
- `Packet::byteArrayToHex`, `Packet::getByteArray` and the default-constructed `Packet` are defined outside the core. They are the fields of an `Externals` value, and no property of the hex codec is assumed.
- The text of the thread-table key built from `toIP + ":" + port` is the abstract function `hashAddress`. The properties hold for any key function.
- Protocol.Upper: upper-cases ASCII letters only and leaves every other character unchanged. `QString::toUpper` also maps other characters, and it can change the length ("ß" becomes "SS"). For the only use, the comparisons with "TCP" and "UDP", the result is still exact.
- Network.PacketNetwork.constructor: the program's constructor sets none of the member flags, and the UDP socket exists only from init on (src/packetnetwork.cpp:75). Calling getUDPPort, packetToSend, readPendingDatagrams or readyRead before init therefore has no defined behaviour in the program. In the model, those members require the ghost field `initialized`, which only Init sets. The values the constructor gives the flags are placeholders that nothing can observe.
- Each slot runs as one atomic step with respect to worker completion and datagram arrival. In the program a `TCPThread` finishes on its own thread. It can therefore stop between the `isRunning()` test and the `sendAnother` call (src/packetnetwork.cpp:243-244) and still be handed the packet; the model has no such window. Likewise, datagrams that arrive while `readPendingDatagrams` is looping are drained in the same call in the program, but in the model they arrive only between calls.
- Calling init a second time creates a new UDP socket in the program, while the old one stays open and keeps its port. The model keeps a single UDP socket state. The answer to the new bind is whatever `Host` gives, so the model does not capture a clash with the old socket's port.
- Numbers.Number: bases 2 to 16 are covered, including the 10 and 16 that debugQByteArray uses. The negative numbers QString::number also accepts are not.
