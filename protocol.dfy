/** The protocol test `sendpacket.tcpOrUdp.toUpper() == "TCP"` (or "UDP").
    Upper-casing is modelled on ASCII letters only: no other character
    upper-cases into 'T', 'C', 'P', 'U' or 'D', so the two tests are exact. */
module Protocol {

  function UpperChar(c: char): (u: char)
    ensures 'a' <= c <= 'z' ==> u as int == c as int - 32
    ensures !('a' <= c <= 'z') ==> u == c
  {
    if 'a' <= c <= 'z' then (c as int - 32) as char else c
  }

  function Upper(s: string): (u: string)
    ensures |u| == |s|
    ensures forall i :: 0 <= i < |s| ==> u[i] == UpperChar(s[i])
  {
    if s == [] then [] else [UpperChar(s[0])] + Upper(s[1..])
  }

  predicate IsTcp(protocol: string) { Upper(protocol) == "TCP" }

  predicate IsUdp(protocol: string) { Upper(protocol) == "UDP" }

  /** `c` matches the upper-case letter `L` ignoring ASCII case. */
  predicate SameLetter(c: char, L: char)
    requires 'A' <= L <= 'Z'
  {
    c == L || c as int == L as int + 32
  }

  /** The protocol string names TCP exactly when it is "tcp" in any mix of cases. */
  lemma IsTcpCaseInsensitive(protocol: string)
    ensures IsTcp(protocol) <==>
      |protocol| == 3 && SameLetter(protocol[0], 'T') && SameLetter(protocol[1], 'C') && SameLetter(protocol[2], 'P')
  {
  }

  /** The protocol string names UDP exactly when it is "udp" in any mix of cases. */
  lemma IsUdpCaseInsensitive(protocol: string)
    ensures IsUdp(protocol) <==>
      |protocol| == 3 && SameLetter(protocol[0], 'U') && SameLetter(protocol[1], 'D') && SameLetter(protocol[2], 'P')
  {
  }

  /** No protocol string is both TCP and UDP, so the two branches of the dispatch never overlap. */
  lemma TcpAndUdpExclusive(protocol: string)
    ensures !(IsTcp(protocol) && IsUdp(protocol))
  {
  }
}
