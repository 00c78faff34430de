/** IPv4 and TCP header parsing against section 3.1 of RFC 791 and section 3.1 of RFC 9293. */
module Packet {
  import opened Addr

  type Bytes = seq<Octet>

  const PROTOCOL_ICMP: Octet := 1
  const PROTOCOL_IGMP: Octet := 2
  const PROTOCOL_TCP: Octet := 6
  const PROTOCOL_UDP: Octet := 17

  const FLAG_FIN: nat := 0x01
  const FLAG_SYN: nat := 0x02
  const FLAG_RST: nat := 0x04
  const FLAG_ACK: nat := 0x10

  datatype Packet = Packet(version: int, ihl: int, totalLen: int, protocol: Octet, src: Addr, dst: Addr, raw: Bytes)

  datatype Error = TooShort | NotIPv4 | InvalidLength | Truncated | NotTCP | TCPTooShort | InvalidTCPHeader

  datatype Result<+T> = Ok(value: T) | Err(error: Error)

  datatype FlowKey = FlowKey(src: Addr, dst: Addr, srcPort: int, dstPort: int)

  datatype TCPHeader = TCPHeader(flow: FlowKey, dataOffset: int, flags: Octet)

  datatype Class = Other | TCP | UDP | ICMP | Noise

  function Uint16(b: Bytes, i: nat): (n: int)
    requires i + 2 <= |b|
    ensures 0 <= n < 0x1_0000
  {
    b[i] as int * 0x100 + b[i + 1]
  }

  function ParseIPv4(data: Bytes): Result<Packet> {
    if |data| < 20 then Err(TooShort)
    else
      var version := data[0] / 16;
      if version != 4 then Err(NotIPv4)
      else
        var ihl := data[0] % 16;
        if ihl < 5 then Err(InvalidLength)
        else
          var headerLen := ihl as int * 4;
          if |data| < headerLen then Err(TooShort)
          else
            var totalLen := Uint16(data, 2);
            if totalLen == 0 then Err(InvalidLength)
            else if totalLen < headerLen then Err(InvalidLength)
            else if totalLen > |data| then Err(Truncated)
            else Ok(Packet(version, ihl, totalLen, data[9], From4(data[12..16]), From4(data[16..20]), data[..totalLen]))
  }

  /** `Packet.Class`. */
  function ClassOf(p: Packet): Class {
    if IsMulticast(p.dst) || p.dst == ADDR_SPACE - 1 || p.protocol == PROTOCOL_IGMP then Noise
    else if p.protocol == PROTOCOL_TCP then TCP
    else if p.protocol == PROTOCOL_UDP then UDP
    else if p.protocol == PROTOCOL_ICMP then ICMP
    else Other
  }

  predicate IsMulticast(a: Addr) {
    224 <= As4(a)[0] <= 239
  }

  /** `Packet.TCPHeader`. */
  function ParseTCP(p: Packet): Result<TCPHeader>
    requires p.ihl >= 0
  {
    if p.protocol != PROTOCOL_TCP then Err(NotTCP)
    else
      var headerLen := p.ihl * 4;
      if |p.raw| < headerLen + 20 then Err(TCPTooShort)
      else
        var tcp := p.raw[headerLen..];
        var dataOffset := tcp[12] / 16;
        if dataOffset < 5 then Err(InvalidTCPHeader)
        else if |tcp| < dataOffset as int * 4 then Err(TCPTooShort)
        else Ok(TCPHeader(FlowKey(p.src, p.dst, Uint16(tcp, 0), Uint16(tcp, 2)), dataOffset, tcp[13]))
  }

  predicate FlagSet(flags: Octet, mask: nat)
    requires mask >= 1
  {
    flags / mask % 2 == 1
  }

  predicate IsInitialSYN(h: TCPHeader) {
    FlagSet(h.flags, FLAG_SYN) && !FlagSet(h.flags, FLAG_ACK)
  }

  predicate ClosesFlow(h: TCPHeader) {
    FlagSet(h.flags, FLAG_FIN) || FlagSet(h.flags, FLAG_RST)
  }

  // ---- the header format ------------------------------------------------------------------

  /** A datagram in the fields of section 3.1 of RFC 791; `dscp` stands for the type of service octet, `fragment` for
      the identification, flags and offset octets. */
  datatype Datagram = Datagram(dscp: Octet, fragment: Bytes, ttl: Octet, protocol: Octet, checksum: Bytes,
                               src: Addr, dst: Addr, options: Bytes, payload: Bytes)

  predicate Encodable(d: Datagram) {
    && |d.fragment| == 4 && |d.checksum| == 2
    && |d.options| % 4 == 0 && |d.options| <= 40
    && 20 + |d.options| + |d.payload| < 0x1_0000
  }

  /** Version, header length, type of service and total length. */
  function Head(d: Datagram): (b: Bytes)
    requires Encodable(d)
    ensures |b| == 4
  {
    var total := 20 + |d.options| + |d.payload|;
    [0x45 + |d.options| / 4, d.dscp, total / 0x100, total % 0x100]
  }

  function FixedHeader(d: Datagram): (b: Bytes)
    requires Encodable(d)
    ensures |b| == 20
  {
    Head(d) + d.fragment + [d.ttl, d.protocol] + d.checksum + As4(d.src) + As4(d.dst)
  }

  function Encode(d: Datagram): (b: Bytes)
    requires Encodable(d)
  {
    FixedHeader(d) + d.options + d.payload
  }

  /** Reads the fields back, following the format and not the parser. */
  function Decode(b: Bytes): Datagram
    requires |b| >= 20 && 20 <= b[0] % 16 * 4 <= |b|
  {
    var n := b[0] % 16 * 4;
    Datagram(b[1], b[4..8], b[8], b[9], b[10..12], From4(b[12..16]), From4(b[16..20]), b[20..n], b[n..])
  }

  ghost predicate WellFormed(data: Bytes) {
    && |data| >= 20
    && data[0] / 16 == 4 && data[0] % 16 >= 5
    && data[0] % 16 * 4 <= Uint16(data, 2) <= |data|
  }

  /** The parser accepts exactly the byte strings with version 4, a header of at least five words and a total length
      that covers the header and is covered by the data. */
  lemma ParserAcceptsWellFormed(data: Bytes)
    ensures ParseIPv4(data).Ok? <==> WellFormed(data)
  {}

  /** Each error says what is wrong: too short for the header, not version 4, lengths that contradict each other, or
      fewer bytes than the total length announces; there is no other error. */
  lemma ParserErrors(data: Bytes)
    requires ParseIPv4(data).Err?
    ensures var e := ParseIPv4(data).error;
            && (e == TooShort <==> |data| < 20 || (data[0] / 16 == 4 && data[0] % 16 >= 5 && |data| < data[0] % 16 * 4))
            && (e == NotIPv4 <==> |data| >= 20 && data[0] / 16 != 4)
            && (e == InvalidLength <==>
                  |data| >= 20 && data[0] / 16 == 4
                  && (data[0] % 16 < 5 || Uint16(data, 2) < data[0] % 16 * 4 <= |data|))
            && e in {TooShort, NotIPv4, InvalidLength, Truncated}
            && (e == Truncated <==>
                  |data| >= 20 && data[0] / 16 == 4 && 20 <= data[0] % 16 * 4 <= |data| < Uint16(data, 2))
  {}

  lemma EndSlice(x: Bytes, y: Bytes)
    ensures (x + y)[|x|..|x| + |y|] == y
  {}

  lemma SliceOfPrefix(b: Bytes, rest: Bytes, i: nat, j: nat)
    requires i <= j <= |b|
    ensures (b + rest)[i..j] == b[i..j]
  {}

  /** The parts of a concatenation of six. */
  lemma SixParts(a: Bytes, b: Bytes, c: Bytes, d: Bytes, e: Bytes, f: Bytes)
    requires |a| == 4 && |b| == 4 && |c| == 2 && |d| == 2 && |e| == 4 && |f| == 4
    ensures var s := a + b + c + d + e + f;
            && s[..4] == a && s[4..8] == b && s[8..10] == c && s[10..12] == d && s[12..16] == e && s[16..20] == f
  {
    var ab, abc, abcd, abcde := a + b, a + b + c, a + b + c + d, a + b + c + d + e;
    EndSlice(a, b);
    EndSlice(ab, c);
    EndSlice(abc, d);
    EndSlice(abcd, e);
    EndSlice(abcde, f);
    PrefixOfFive(a, b, c, d, e, f, 0, 4);
    PrefixOfFive(a, b, c, d, e, f, 4, 8);
    SliceOfPrefix(abc, d, 8, 10);
    SliceOfPrefix(abcd, e, 8, 10);
    SliceOfPrefix(abcde, f, 8, 10);
    SliceOfPrefix(abcd, e, 10, 12);
    SliceOfPrefix(abcde, f, 10, 12);
    SliceOfPrefix(abcde, f, 12, 16);
    assert (a + b)[..4] == a;
  }

  lemma PrefixOfFive(a: Bytes, b: Bytes, c: Bytes, d: Bytes, e: Bytes, f: Bytes, i: nat, j: nat)
    requires i <= j <= |a + b|
    ensures (a + b + c + d + e + f)[i..j] == (a + b)[i..j]
  {
    SliceOfPrefix(a + b, c, i, j);
    SliceOfPrefix(a + b + c, d, i, j);
    SliceOfPrefix(a + b + c + d, e, i, j);
    SliceOfPrefix(a + b + c + d + e, f, i, j);
  }

  lemma HeadFields(d: Datagram)
    requires Encodable(d)
    ensures var b := Head(d);
            && b[0] / 16 == 4 && b[0] % 16 == 5 + |d.options| / 4 && b[1] == d.dscp
            && Uint16(b, 2) == 20 + |d.options| + |d.payload|
  {}

  lemma FixedHeaderFields(d: Datagram)
    requires Encodable(d)
    ensures var b := FixedHeader(d);
            && b[..4] == Head(d) && b[4..8] == d.fragment && b[8..10] == [d.ttl, d.protocol] && b[10..12] == d.checksum
            && b[12..16] == As4(d.src) && b[16..20] == As4(d.dst)
  {
    SixParts(Head(d), d.fragment, [d.ttl, d.protocol], d.checksum, As4(d.src), As4(d.dst));
  }

  /** What the parser looks at. */
  lemma ParsedFields(d: Datagram, rest: Bytes)
    requires Encodable(d)
    ensures var data := FixedHeader(d) + rest;
            && data[0] / 16 == 4 && data[0] % 16 == 5 + |d.options| / 4
            && Uint16(data, 2) == 20 + |d.options| + |d.payload| && data[9] == d.protocol
            && From4(data[12..16]) == d.src && From4(data[16..20]) == d.dst
  {
    var h := FixedHeader(d);
    FixedHeaderFields(d);
    HeadFields(d);
    assert h[0] == h[..4][0] && h[2] == h[..4][2] && h[3] == h[..4][3] && h[9] == h[8..10][1];
    SliceOfPrefix(h, rest, 12, 16);
    SliceOfPrefix(h, rest, 16, 20);
    FromAs4(d.src);
    FromAs4(d.dst);
  }

  /** Parsing inverts the encoder, whatever padding follows the datagram. */
  lemma ParseInvertsEncode(d: Datagram, padding: Bytes)
    requires Encodable(d)
    ensures ParseIPv4(Encode(d) + padding)
         == Ok(Packet(4, 5 + |d.options| / 4, |Encode(d)|, d.protocol, d.src, d.dst, Encode(d)))
  {
    var h, rest := FixedHeader(d), d.options + d.payload + padding;
    ParsedFields(d, rest);
    RegroupFour(h, d.options, d.payload, padding);
    SliceOfPrefix(Encode(d), padding, 0, |Encode(d)|);
    assert 4 * (|d.options| / 4) == |d.options|;
  }

  lemma RegroupFour(a: Bytes, b: Bytes, c: Bytes, d: Bytes)
    ensures a + b + c + d == a + (b + c + d)
  {}

  /** Every accepted packet is the encoding of a datagram: decoding its raw bytes and encoding again gives them back. */
  lemma EncodeInvertsDecode(data: Bytes)
    requires ParseIPv4(data).Ok?
    ensures var raw := ParseIPv4(data).value.raw;
            && |raw| >= 20 && 20 <= raw[0] % 16 * 4 <= |raw|
            && Encodable(Decode(raw)) && Encode(Decode(raw)) == raw
  {
    var raw := ParseIPv4(data).value.raw;
    RawIsWellFormed(data);
    HeaderIsRaw(raw);
    Glue(raw, 20, raw[0] % 16 * 4);
    Glue(raw, raw[0] % 16 * 4, |raw|);
    assert raw[..|raw|] == raw;
  }

  /** The raw bytes of an accepted packet carry its version, header length and total length. */
  lemma RawIsWellFormed(data: Bytes)
    requires ParseIPv4(data).Ok?
    ensures var raw := ParseIPv4(data).value.raw;
            && |raw| >= 20 && raw[0] / 16 == 4 && 20 <= raw[0] % 16 * 4 <= |raw| && Uint16(raw, 2) == |raw| < 0x1_0000
  {
    var raw := ParseIPv4(data).value.raw;
    assert raw[0] == data[0] && raw[2] == data[2] && raw[3] == data[3];
  }

  lemma Glue(b: Bytes, i: nat, j: nat)
    requires i <= j <= |b|
    ensures b[..i] + b[i..j] == b[..j]
  {}

  lemma SixPieces(b: Bytes)
    requires |b| >= 20
    ensures b[..20] == b[..4] + b[4..8] + b[8..10] + b[10..12] + b[12..16] + b[16..20]
  {
    Glue(b, 4, 8);
    Glue(b, 8, 10);
    Glue(b, 10, 12);
    Glue(b, 12, 16);
    Glue(b, 16, 20);
  }

  lemma HeadIsRaw(raw: Bytes)
    requires |raw| >= 20 && raw[0] / 16 == 4 && 20 <= raw[0] % 16 * 4 <= |raw| && Uint16(raw, 2) == |raw| < 0x1_0000
    ensures Encodable(Decode(raw)) && Head(Decode(raw)) == raw[..4]
  {
    var d, n := Decode(raw), raw[0] % 16 * 4;
    assert |d.options| == n - 20 && |d.payload| == |raw| - n;
    assert Head(d)[0] == raw[0] && Head(d)[2] == raw[2] && Head(d)[3] == raw[3];
  }

  lemma HeaderIsRaw(raw: Bytes)
    requires |raw| >= 20 && raw[0] / 16 == 4 && 20 <= raw[0] % 16 * 4 <= |raw| && Uint16(raw, 2) == |raw| < 0x1_0000
    ensures Encodable(Decode(raw)) && FixedHeader(Decode(raw)) == raw[..20]
  {
    HeadIsRaw(raw);
    SixPieces(raw);
    AsFrom4(raw[12..16]);
    AsFrom4(raw[16..20]);
    assert [raw[8], raw[9]] == raw[8..10];
  }

  /** Bytes after the total length change nothing, and the raw bytes parse to the same packet. */
  lemma ParseIgnoresPadding(data: Bytes, padding: Bytes)
    requires ParseIPv4(data).Ok?
    ensures ParseIPv4(data + padding) == ParseIPv4(data)
    ensures ParseIPv4(ParseIPv4(data).value.raw) == ParseIPv4(data)
  {
    EncodeInvertsDecode(data);
    var p := ParseIPv4(data).value;
    var d := Decode(p.raw);
    ParseInvertsEncode(d, data[|p.raw|..]);
    ParseInvertsEncode(d, data[|p.raw|..] + padding);
    ParseInvertsEncode(d, []);
    assert data == p.raw + data[|p.raw|..];
    assert data + padding == p.raw + (data[|p.raw|..] + padding);
    assert p.raw + [] == p.raw;
  }

  // ---- TCP --------------------------------------------------------------------------------

  /** The fixed part of a segment header in the fields of section 3.1 of RFC 9293; `sequence` stands for the sequence
      and acknowledgement numbers, `rest` for everything after the flags. */
  datatype Segment = Segment(srcPort: int, dstPort: int, sequence: Bytes, dataOffset: int, reserved: int, flags: Octet,
                             rest: Bytes)

  predicate SegmentEncodable(s: Segment) {
    && 0 <= s.srcPort < 0x1_0000 && 0 <= s.dstPort < 0x1_0000 && |s.sequence| == 8
    && 5 <= s.dataOffset < 16 && 0 <= s.reserved < 16 && |s.rest| >= 4 * s.dataOffset - 14
  }

  function EncodeSegment(s: Segment): (b: Bytes)
    requires SegmentEncodable(s)
    ensures |b| == 14 + |s.rest|
  {
    [s.srcPort / 0x100, s.srcPort % 0x100, s.dstPort / 0x100, s.dstPort % 0x100] + s.sequence
    + [s.dataOffset * 16 + s.reserved, s.flags] + s.rest
  }

  /** What `TCPHeader` looks at. */
  lemma SegmentFields(s: Segment)
    requires SegmentEncodable(s)
    ensures var b := EncodeSegment(s);
            && |b| >= 20 && |b| >= s.dataOffset * 4 && Uint16(b, 0) == s.srcPort && Uint16(b, 2) == s.dstPort
            && b[12] / 16 == s.dataOffset && b[13] == s.flags
  {
    var ports := [s.srcPort / 0x100, s.srcPort % 0x100, s.dstPort / 0x100, s.dstPort % 0x100];
    var x := ports + s.sequence;
    assert x[..4] == ports;
    assert EncodeSegment(s) == x + [s.dataOffset * 16 + s.reserved, s.flags] + s.rest;
  }

  /** A datagram that carries an encoded segment yields that segment's flow, offset and flags. */
  lemma TCPHeaderInvertsEncode(d: Datagram, s: Segment, padding: Bytes)
    requires Encodable(d) && SegmentEncodable(s) && d.protocol == PROTOCOL_TCP && d.payload == EncodeSegment(s)
    ensures ParseIPv4(Encode(d) + padding).Ok?
    ensures ParseTCP(ParseIPv4(Encode(d) + padding).value)
         == Ok(TCPHeader(FlowKey(d.src, d.dst, s.srcPort, s.dstPort), s.dataOffset, s.flags))
  {
    ParseInvertsEncode(d, padding);
    SegmentFields(s);
    var x := FixedHeader(d) + d.options;
    EndSlice(x, d.payload);
    assert (5 + |d.options| / 4) * 4 == |x|;
    assert Encode(d)[|x|..] == d.payload;
  }

  /** TCPHeader accepts exactly the TCP packets whose raw bytes hold the announced segment header, and every byte it
      reports lies inside them. */
  lemma TCPHeaderAccepts(data: Bytes)
    requires ParseIPv4(data).Ok?
    ensures var p := ParseIPv4(data).value;
            var o := p.ihl * 4;
            ParseTCP(p).Ok? <==> p.protocol == PROTOCOL_TCP && o + 20 <= |p.raw|
                                 && data[o + 12] / 16 >= 5 && o + data[o + 12] / 16 * 4 <= p.totalLen
    ensures var p := ParseIPv4(data).value;
            ParseTCP(p).Ok? ==>
              var h := ParseTCP(p).value;
              && h.flow.src == p.src && h.flow.dst == p.dst && h.flags == data[p.ihl * 4 + 13]
              && h.flow.srcPort == Uint16(data, p.ihl * 4) && h.flow.dstPort == Uint16(data, p.ihl * 4 + 2)
              && p.ihl * 4 + h.dataOffset * 4 <= p.totalLen <= |data|
  {}

  /** A packet is scheduled by its protocol number when its destination is a unicast address and is noise otherwise, and
      so is IGMP. */
  lemma ClassByProtocol(p: Packet)
    ensures var unicast := !(0xE000_0000 <= p.dst < 0xF000_0000) && p.dst != 0xFFFF_FFFF;
            && (ClassOf(p) == TCP <==> unicast && p.protocol == 6)
            && (ClassOf(p) == UDP <==> unicast && p.protocol == 17)
            && (ClassOf(p) == ICMP <==> unicast && p.protocol == 1)
            && (ClassOf(p) == Noise <==> !unicast || p.protocol == 2)
  {}

  // ---- TCP flags --------------------------------------------------------------------------

  /** The control bits of section 3.1 of RFC 9293. */
  datatype Flags = Flags(cwr: bool, ece: bool, urg: bool, ack: bool, psh: bool, rst: bool, syn: bool, fin: bool)

  function Bit(b: bool): (n: nat)
    ensures n <= 1
  {
    if b then 1 else 0
  }

  /** The octet that carries them, CWR being its highest bit. */
  function FlagOctet(x: Flags): Octet {
    Bit(x.cwr) * 128 + Bit(x.ece) * 64 + Bit(x.urg) * 32 + Bit(x.ack) * 16
    + Bit(x.psh) * 8 + Bit(x.rst) * 4 + Bit(x.syn) * 2 + Bit(x.fin)
  }

  /** A segment closes its flow exactly when FIN or RST is set, and opens one exactly when SYN is set and ACK is not. */
  lemma FlagsAreRead(x: Flags, h: TCPHeader)
    requires h.flags == FlagOctet(x)
    ensures ClosesFlow(h) <==> x.fin || x.rst
    ensures IsInitialSYN(h) <==> x.syn && !x.ack
  {
    FinIs(x);
    SynIs(x);
    RstIs(x);
    AckIs(x);
  }

  lemma FlagIs(o: Octet, mask: nat, above: nat, bit: bool, below: nat)
    requires mask >= 1 && below < mask && o as int == (2 * above + Bit(bit)) * mask + below
    ensures FlagSet(o, mask) <==> bit
  {
    DivModUnique(o, mask, 2 * above + Bit(bit), below);
  }

  function LowBits(x: Flags): (n: nat)
    ensures n < 16
  {
    Bit(x.psh) * 8 + Bit(x.rst) * 4 + Bit(x.syn) * 2 + Bit(x.fin)
  }

  function HighBits(x: Flags): nat {
    Bit(x.cwr) * 8 + Bit(x.ece) * 4 + Bit(x.urg) * 2 + Bit(x.ack)
  }

  lemma FinIs(x: Flags)
    ensures FlagSet(FlagOctet(x), FLAG_FIN) <==> x.fin
  {
    FlagIs(FlagOctet(x), FLAG_FIN, HighBits(x) * 8 + Bit(x.psh) * 4 + Bit(x.rst) * 2 + Bit(x.syn), x.fin, 0);
  }

  lemma SynIs(x: Flags)
    ensures FlagSet(FlagOctet(x), FLAG_SYN) <==> x.syn
  {
    FlagIs(FlagOctet(x), FLAG_SYN, HighBits(x) * 4 + Bit(x.psh) * 2 + Bit(x.rst), x.syn, Bit(x.fin));
  }

  lemma RstIs(x: Flags)
    ensures FlagSet(FlagOctet(x), FLAG_RST) <==> x.rst
  {
    FlagIs(FlagOctet(x), FLAG_RST, HighBits(x) * 2 + Bit(x.psh), x.rst, Bit(x.syn) * 2 + Bit(x.fin));
  }

  lemma AckIs(x: Flags)
    ensures FlagSet(FlagOctet(x), FLAG_ACK) <==> x.ack
  {
    FlagIs(FlagOctet(x), FLAG_ACK, Bit(x.cwr) * 4 + Bit(x.ece) * 2 + Bit(x.urg), x.ack, LowBits(x));
  }

  /** Every octet carries some control bits. */
  lemma EveryOctetIsFlags(o: Octet) returns (x: Flags)
    ensures FlagOctet(x) == o
  {
    var o1, fin := Halve(o);
    var o2, syn := Halve(o1);
    var o3, rst := Halve(o2);
    var o4, psh := Halve(o3);
    var o5, ack := Halve(o4);
    var o6, urg := Halve(o5);
    var o7, ece := Halve(o6);
    x := Flags(o7 == 1, ece, urg, ack, psh, rst, syn, fin);
  }

  lemma Halve(n: nat) returns (half: nat, odd: bool)
    ensures n == 2 * half + Bit(odd)
  {
    half, odd := n / 2, n % 2 == 1;
  }
}
