/** PacketNetwork::readPendingDatagrams as a function of the pending queue:
    each datagram, in arrival order, becomes one packetSent event, followed,
    when auto-response is on, by the reply datagram and a second event. */
module Datagrams {
  import opened Types

  /** What the drain reads from the network object. */
  datatype DrainContext = DrainContext(
    udpPort: int,          // getUDPPort()
    sendResponse: bool,
    responseData: string,
    ext: Externals)

  /** The packet reported for a received datagram. */
  function Received(c: DrainContext, d: Datagram): Packet
  {
    c.ext.blank.(
      tcpOrUdp := "UDP",
      fromIP := d.sender,
      toIP := "You",
      port := c.udpPort,
      fromPort := d.senderPort,
      hexString := c.ext.byteArrayToHex(d.data))
  }

  /** The packet reported for the automatic reply (the same record, rewritten). */
  function Response(c: DrainContext, d: Datagram): Packet
  {
    Received(c, d).(
      tcpOrUdp := "UDP",
      fromIP := "You (Response)",
      toIP := d.sender,
      port := d.senderPort,
      fromPort := c.udpPort,
      hexString := c.responseData)
  }

  /** Outputs produced per datagram. */
  function Width(c: DrainContext): nat
  {
    if c.sendResponse then 3 else 1
  }

  /** The outputs for one datagram. */
  function Reaction(c: DrainContext, d: Datagram): (out: seq<Output>)
    ensures |out| == Width(c)
  {
    var p := Received(c, d);
    [PacketSent(p)] +
    (if c.sendResponse then
       var r := Response(c, d);
       [DatagramWritten(c.ext.getByteArray(r.hexString), d.sender, d.senderPort), PacketSent(r)]
     else [])
  }

  /** The report of the datagram comes first: from its sender to "You" on the
      UDP port. With auto-response on, the response bytes are then written back
      to the sender, and the response is reported as from "You (Response)". */
  lemma ReactionShape(c: DrainContext, d: Datagram)
    ensures var out := Reaction(c, d);
      && out[0].PacketSent?
      && out[0].packet.toIP == "You" && out[0].packet.fromIP == d.sender
      && out[0].packet.fromPort == d.senderPort && out[0].packet.port == c.udpPort
      && out[0].packet.tcpOrUdp == "UDP"
      && out[0].packet.hexString == c.ext.byteArrayToHex(d.data)
      && (c.sendResponse ==>
        && out[1] == DatagramWritten(c.ext.getByteArray(c.responseData), d.sender, d.senderPort)
        && out[2].PacketSent?
        && out[2].packet.fromIP == "You (Response)" && out[2].packet.toIP == d.sender
        && out[2].packet.port == d.senderPort && out[2].packet.fromPort == c.udpPort
        && out[2].packet.tcpOrUdp == "UDP"
        && out[2].packet.hexString == c.responseData)
  {
  }

  /** The outputs of draining `ds`, oldest datagram first. */
  function Drain(c: DrainContext, ds: seq<Datagram>): seq<Output>
  {
    if ds == [] then []
    else Drain(c, ds[..|ds| - 1]) + Reaction(c, ds[|ds| - 1])
  }

  /** Draining one more datagram appends its reaction. */
  lemma DrainSnoc(c: DrainContext, ds: seq<Datagram>, d: Datagram)
    ensures Drain(c, ds + [d]) == Drain(c, ds) + Reaction(c, d)
  {
  }

  /** Width(c) outputs per datagram: 1 without auto-response, 3 with it. */
  lemma {:induction false} DrainLength(c: DrainContext, ds: seq<Datagram>)
    ensures |Drain(c, ds)| == Width(c) * |ds|
  {
    if ds != [] {
      DrainLength(c, ds[..|ds| - 1]);
    }
  }

  /** The outputs for datagram i sit at positions Width(c)*i .. Width(c)*i + Width(c) - 1. */
  lemma {:induction false} DrainAt(c: DrainContext, ds: seq<Datagram>, i: nat, j: nat)
    requires i < |ds| && j < Width(c)
    ensures Width(c) * i + j < |Drain(c, ds)|
    ensures Drain(c, ds)[Width(c) * i + j] == Reaction(c, ds[i])[j]
  {
    var init := ds[..|ds| - 1];
    DrainLength(c, init);
    DrainLength(c, ds);
    if i < |ds| - 1 {
      DrainAt(c, init, i, j);
      assert init[i] == ds[i];
    } else {
      assert Width(c) * i == |Drain(c, init)|;
    }
  }

  function CountSent(out: seq<Output>): nat
  {
    if out == [] then 0
    else CountSent(out[..|out| - 1]) + (if out[|out| - 1].PacketSent? then 1 else 0)
  }

  function CountWrites(out: seq<Output>): nat
  {
    if out == [] then 0
    else CountWrites(out[..|out| - 1]) + (if out[|out| - 1].DatagramWritten? then 1 else 0)
  }

  lemma {:induction false} CountsAppend(a: seq<Output>, b: seq<Output>)
    ensures CountSent(a + b) == CountSent(a) + CountSent(b)
    ensures CountWrites(a + b) == CountWrites(a) + CountWrites(b)
  {
    if b != [] {
      assert (a + b)[..|a + b| - 1] == a + b[..|b| - 1];
      CountsAppend(a, b[..|b| - 1]);
    } else {
      assert a + b == a;
    }
  }

  lemma ReactionCounts(c: DrainContext, d: Datagram)
    ensures CountSent(Reaction(c, d)) == if c.sendResponse then 2 else 1
    ensures CountWrites(Reaction(c, d)) == if c.sendResponse then 1 else 0
  {
    var r := Reaction(c, d);
    assert r[..1][..0] == [];
    assert CountSent(r[..1]) == 1 && CountWrites(r[..1]) == 0;
    if c.sendResponse {
      assert r[..3][..2] == r[..2] && r[..2][..1] == r[..1];
      assert r[..3] == r;
    } else {
      assert r[..1] == r;
    }
  }

  /** One packetSent per datagram, two with auto-response; one reply write per
      datagram with auto-response and none without. */
  lemma {:induction false} DrainCounts(c: DrainContext, ds: seq<Datagram>)
    ensures CountSent(Drain(c, ds)) == (if c.sendResponse then 2 else 1) * |ds|
    ensures CountWrites(Drain(c, ds)) == (if c.sendResponse then 1 else 0) * |ds|
  {
    if ds != [] {
      var init := ds[..|ds| - 1];
      DrainCounts(c, init);
      CountsAppend(Drain(c, init), Reaction(c, ds[|ds| - 1]));
      ReactionCounts(c, ds[|ds| - 1]);
    }
  }
}
