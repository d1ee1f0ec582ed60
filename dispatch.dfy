/** PacketNetwork::packetToSend as a function of the thread table: the ordered
    choice between persistent hand-off, reuse of a running worker, a new TCP
    worker, a direct UDP datagram, and doing nothing. */
module Dispatch {
  import opened Types
  import opened Protocol

  /** tcpthreadList: destination key to worker. A key that was looked up but
      never assigned holds None (QHash::operator[] inserts a null entry). */
  type Table = map<string, Option<Worker>>

  /** The entry at `key`, with "absent" and "null" both read as None. */
  function Lookup(t: Table, key: string): Option<Worker>
  {
    if key in t then t[key] else None
  }

  predicate RunningAt(t: Table, key: string)
  {
    Lookup(t, key).Some? && Lookup(t, key).value.running
  }

  /** The network-wide send-behaviour settings. */
  datatype Defaults = Defaults(receiveBeforeSend: bool, delayAfterConnect: int, persistent: bool)

  /** What packetToSend reads from the network object. */
  datatype SendContext = SendContext(defaults: Defaults, udpPort: int, ext: Externals)

  /** The packet with its behaviour flags overwritten by the settings. */
  function Stamp(p: Packet, d: Defaults): Packet
  {
    p.(receiveBeforeSend := d.receiveBeforeSend,
       delayAfterConnect := d.delayAfterConnect,
       persistent := d.persistent)
  }

  /** The table key `toIP + ":" + port`. */
  function KeyOf(c: SendContext, p: Packet): string
  {
    c.ext.hashAddress(p.toIP, p.port)
  }

  /** Table, next worker number and outputs after a send. */
  datatype Step = Step(table: Table, next: nat, out: seq<Output>)

  function Send(c: SendContext, t: Table, next: nat, p: Packet): Step
  {
    var q := Stamp(p, c.defaults);
    if q.persistent && IsTcp(q.tcpOrUdp) then
      Step(t, next, [HandedOff(q)])
    else
      var key := KeyOf(c, q);
      var t1 := if key in t then t else t[key := None];
      if RunningAt(t, key) then
        Step(t1, next, [SentAnother(Lookup(t, key).value.id, q)])
      else if IsTcp(q.tcpOrUdp) then
        Step(t1[key := Some(Worker(next, true))], next + 1, [WorkerStarted(next, q)])
      else if IsUdp(q.tcpOrUdp) then
        var r := q.(fromIP := "You", fromPort := c.udpPort);
        Step(t1, next, [DatagramWritten(c.ext.getByteArray(r.hexString), r.toIP, Quint16(r.port)), PacketSent(r)])
      else
        Step(t1, next, [])
  }

  /** Every entry reads the same before and after. */
  ghost predicate SameEntries(t: Table, u: Table)
  {
    forall k :: Lookup(t, k) == Lookup(u, k)
  }

  /** The caller's behaviour flags never matter: only the settings do. */
  lemma SendIgnoresCallerFlags(c: SendContext, t: Table, next: nat, p: Packet, rbs: bool, delay: int, pers: bool)
    ensures Send(c, t, next, p) == Send(c, t, next, p.(receiveBeforeSend := rbs, delayAfterConnect := delay, persistent := pers))
  {
    assert Stamp(p, c.defaults) == Stamp(p.(receiveBeforeSend := rbs, delayAfterConnect := delay, persistent := pers), c.defaults);
  }

  /** Every packet that leaves packetToSend carries the settings' flags and the
      caller's destination, protocol and payload. */
  lemma SendStampsDefaults(c: SendContext, t: Table, next: nat, p: Packet)
    ensures forall o :: o in Send(c, t, next, p).out && !o.DatagramWritten? ==>
      && o.packet.receiveBeforeSend == c.defaults.receiveBeforeSend
      && o.packet.delayAfterConnect == c.defaults.delayAfterConnect
      && o.packet.persistent == c.defaults.persistent
      && o.packet.toIP == p.toIP && o.packet.port == p.port
      && o.packet.tcpOrUdp == p.tcpOrUdp && o.packet.hexString == p.hexString
  {
  }

  /** A persistent TCP packet is handed off; nothing else happens. */
  lemma SendPersistentTcp(c: SendContext, t: Table, next: nat, p: Packet)
    requires c.defaults.persistent && IsTcp(p.tcpOrUdp)
    ensures Send(c, t, next, p) == Step(t, next, [HandedOff(Stamp(p, c.defaults))])
  {
  }

  /** A running worker at the key gets the packet, whatever its protocol. */
  lemma SendReusesRunningWorker(c: SendContext, t: Table, next: nat, p: Packet)
    requires !(c.defaults.persistent && IsTcp(p.tcpOrUdp))
    requires RunningAt(t, KeyOf(c, p))
    ensures var r := Send(c, t, next, p);
      && r.out == [SentAnother(Lookup(t, KeyOf(c, p)).value.id, Stamp(p, c.defaults))]
      && r.next == next
      && SameEntries(t, r.table)
  {
  }

  /** A TCP packet without a running worker at its key gets a new worker there;
      every other entry stays as it was. */
  lemma SendStartsTcpWorker(c: SendContext, t: Table, next: nat, p: Packet)
    requires !c.defaults.persistent && IsTcp(p.tcpOrUdp)
    requires !RunningAt(t, KeyOf(c, p))
    ensures var r := Send(c, t, next, p);
      && r.out == [WorkerStarted(next, Stamp(p, c.defaults))]
      && r.next == next + 1
      && Lookup(r.table, KeyOf(c, p)) == Some(Worker(next, true))
      && (forall k :: k != KeyOf(c, p) ==> Lookup(r.table, k) == Lookup(t, k))
      && r.table.Keys == t.Keys + {KeyOf(c, p)}
  {
  }

  /** A UDP packet without a running worker at its key is written once to
      toIP:port and reported once, as sent from "You" on the UDP port. */
  lemma SendUdpDirect(c: SendContext, t: Table, next: nat, p: Packet)
    requires IsUdp(p.tcpOrUdp)
    requires !RunningAt(t, KeyOf(c, p))
    ensures var r := Send(c, t, next, p);
      var sent := Stamp(p, c.defaults).(fromIP := "You", fromPort := c.udpPort);
      && r.out == [DatagramWritten(c.ext.getByteArray(p.hexString), p.toIP, Quint16(p.port)), PacketSent(sent)]
      && r.next == next
      && SameEntries(t, r.table)
  {
    TcpAndUdpExclusive(p.tcpOrUdp);
  }

  /** Any other protocol, without a running worker at its key, has no effect. */
  lemma SendOtherProtocol(c: SendContext, t: Table, next: nat, p: Packet)
    requires !IsTcp(p.tcpOrUdp) && !IsUdp(p.tcpOrUdp)
    requires !RunningAt(t, KeyOf(c, p))
    ensures var r := Send(c, t, next, p);
      r.out == [] && r.next == next && SameEntries(t, r.table)
  {
  }

  /** Entries are never removed and a worker entry never goes back to null. */
  ghost predicate Grows(t: Table, u: Table)
  {
    && t.Keys <= u.Keys
    && forall k :: Lookup(t, k).Some? ==> Lookup(u, k).Some?
  }

  /** Worker numbers below `next`, and no worker indexed under two keys. */
  predicate WellFormed(t: Table, next: nat)
  {
    && (forall k :: k in t && t[k].Some? ==> t[k].value.id < next)
    && (forall k1, k2 :: k1 in t && k2 in t && t[k1].Some? && t[k2].Some? && t[k1].value.id == t[k2].value.id ==> k1 == k2)
  }

  lemma SendGrows(c: SendContext, t: Table, next: nat, p: Packet)
    ensures Grows(t, Send(c, t, next, p).table)
    ensures Send(c, t, next, p).next >= next
  {
  }

  lemma SendPreservesWellFormed(c: SendContext, t: Table, next: nat, p: Packet)
    requires WellFormed(t, next)
    ensures WellFormed(Send(c, t, next, p).table, Send(c, t, next, p).next)
  {
  }

  /** Sends `ps` one after the other. */
  function SendAll(c: SendContext, t: Table, next: nat, ps: seq<Packet>): Step
  {
    if ps == [] then Step(t, next, [])
    else
      var s := SendAll(c, t, next, ps[..|ps| - 1]);
      var s' := Send(c, s.table, s.next, ps[|ps| - 1]);
      Step(s'.table, s'.next, s.out + s'.out)
  }

  lemma {:induction false} SendAllGrows(c: SendContext, t: Table, next: nat, ps: seq<Packet>)
    ensures Grows(t, SendAll(c, t, next, ps).table)
    ensures SendAll(c, t, next, ps).next >= next
  {
    if ps != [] {
      var s := SendAll(c, t, next, ps[..|ps| - 1]);
      SendAllGrows(c, t, next, ps[..|ps| - 1]);
      SendGrows(c, s.table, s.next, ps[|ps| - 1]);
    }
  }

  lemma {:induction false} SendAllPreservesWellFormed(c: SendContext, t: Table, next: nat, ps: seq<Packet>)
    requires WellFormed(t, next)
    ensures WellFormed(SendAll(c, t, next, ps).table, SendAll(c, t, next, ps).next)
  {
    if ps != [] {
      var s := SendAll(c, t, next, ps[..|ps| - 1]);
      SendAllPreservesWellFormed(c, t, next, ps[..|ps| - 1]);
      SendPreservesWellFormed(c, s.table, s.next, ps[|ps| - 1]);
    }
  }

  function CountStarted(out: seq<Output>): nat
  {
    if out == [] then 0
    else CountStarted(out[..|out| - 1]) + (if out[|out| - 1].WorkerStarted? then 1 else 0)
  }

  lemma {:induction false} CountStartedAppend(a: seq<Output>, b: seq<Output>)
    ensures CountStarted(a + b) == CountStarted(a) + CountStarted(b)
  {
    if b != [] {
      assert (a + b)[..|a + b| - 1] == a + b[..|b| - 1];
      CountStartedAppend(a, b[..|b| - 1]);
    } else {
      assert a + b == a;
    }
  }

  lemma SendCountsWorker(c: SendContext, t: Table, next: nat, p: Packet)
    ensures Send(c, t, next, p).next == next + CountStarted(Send(c, t, next, p).out)
  {
    var r := Send(c, t, next, p);
    if |r.out| == 1 {
      assert r.out[..0] == [];
      assert r.next == next + 1 <==> r.out[0].WorkerStarted?;
    } else if |r.out| == 2 {
      assert r.out[..1][..0] == [];
      assert !r.out[0].WorkerStarted? && !r.out[1].WorkerStarted? && r.next == next;
      assert CountStarted(r.out[..1]) == 0;
    }
  }

  /** A worker number is used up exactly when a worker is started. */
  lemma {:induction false} SendAllCountsWorkers(c: SendContext, t: Table, next: nat, ps: seq<Packet>)
    ensures SendAll(c, t, next, ps).next == next + CountStarted(SendAll(c, t, next, ps).out)
  {
    if ps != [] {
      var s := SendAll(c, t, next, ps[..|ps| - 1]);
      var s' := Send(c, s.table, s.next, ps[|ps| - 1]);
      SendAllCountsWorkers(c, t, next, ps[..|ps| - 1]);
      CountStartedAppend(s.out, s'.out);
      SendCountsWorker(c, s.table, s.next, ps[|ps| - 1]);
    }
  }

  /** With persistent connections on, packetToSend never creates a worker and
      never changes a table entry. */
  lemma {:induction false} PersistentNeverStartsWorkers(c: SendContext, t: Table, next: nat, ps: seq<Packet>)
    requires c.defaults.persistent
    ensures SendAll(c, t, next, ps).next == next
    ensures SameEntries(t, SendAll(c, t, next, ps).table)
    ensures CountStarted(SendAll(c, t, next, ps).out) == 0
  {
    SendAllCountsWorkers(c, t, next, ps);
    if ps != [] {
      var s := SendAll(c, t, next, ps[..|ps| - 1]);
      var p := ps[|ps| - 1];
      PersistentNeverStartsWorkers(c, t, next, ps[..|ps| - 1]);
      if IsTcp(p.tcpOrUdp) {
        SendPersistentTcp(c, s.table, s.next, p);
      } else if RunningAt(s.table, KeyOf(c, p)) {
        SendReusesRunningWorker(c, s.table, s.next, p);
      } else if IsUdp(p.tcpOrUdp) {
        SendUdpDirect(c, s.table, s.next, p);
      } else {
        SendOtherProtocol(c, s.table, s.next, p);
      }
    }
  }

  /** Two TCP packets for one key while the first worker runs: one worker is
      started and the second packet goes to it. */
  lemma SecondTcpPacketReusesWorker(c: SendContext, t: Table, next: nat, p1: Packet, p2: Packet)
    requires !c.defaults.persistent && IsTcp(p1.tcpOrUdp) && IsTcp(p2.tcpOrUdp)
    requires KeyOf(c, p1) == KeyOf(c, p2)
    requires !RunningAt(t, KeyOf(c, p1))
    ensures SendAll(c, t, next, [p1, p2]).out ==
      [WorkerStarted(next, Stamp(p1, c.defaults)), SentAnother(next, Stamp(p2, c.defaults))]
  {
    assert [p1, p2][..1] == [p1];
    assert [p1][..0] == [];
    var s1 := SendAll(c, t, next, [p1]);
    SendStartsTcpWorker(c, t, next, p1);
    var r1 := Send(c, t, next, p1);
    assert SendAll(c, t, next, []) == Step(t, next, []);
    assert [] + r1.out == r1.out;
    assert s1 == r1;
    assert RunningAt(s1.table, KeyOf(c, p2));
    SendReusesRunningWorker(c, s1.table, s1.next, p2);
  }

  /** The worker with number `id` has finished: QThread::isRunning() is false from now on. */
  function Finish(t: Table, id: nat): (u: Table)
    ensures u.Keys == t.Keys
    ensures forall k :: k in t && t[k].Some? && t[k].value.id == id ==> u[k] == Some(Worker(id, false))
    ensures forall k :: k in t && (t[k].None? || t[k].value.id != id) ==> u[k] == t[k]
  {
    map k | k in t :: if t[k].Some? && t[k].value.id == id then Some(Worker(id, false)) else t[k]
  }

  lemma FinishPreservesWellFormed(t: Table, next: nat, id: nat)
    requires WellFormed(t, next)
    ensures WellFormed(Finish(t, id), next)
  {
  }

  /** Once a worker has finished, a packet for its key never goes to it: a TCP
      packet starts a fresh worker that replaces it. */
  lemma FinishedWorkerNotReused(c: SendContext, t: Table, next: nat, p: Packet)
    requires WellFormed(t, next)
    requires Lookup(t, KeyOf(c, p)).Some?
    ensures var w := Lookup(t, KeyOf(c, p)).value;
      var r := Send(c, Finish(t, w.id), next, p);
      && (forall o :: o in r.out ==> !(o.SentAnother? && o.worker == w.id))
      && (!c.defaults.persistent && IsTcp(p.tcpOrUdp) ==>
            Lookup(r.table, KeyOf(c, p)) == Some(Worker(next, true)) && next != w.id)
  {
    var w := Lookup(t, KeyOf(c, p)).value;
    assert !RunningAt(Finish(t, w.id), KeyOf(c, p));
  }
}
