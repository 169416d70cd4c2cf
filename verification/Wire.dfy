/** The byte formats of src/ip.rs and src/tcp.rs, built and parsed (section 3.1 of RFC 791 and of RFC 9293). */
module Wire {
  import opened SeqSpace
  import opened Connection
  import opened Checksum

  const IP_HEADER_LEN: nat := 20
  const TCP_HEADER_LEN: nat := 20
  const PROTO_TCP: Byte := 6

  // ---------------------------------------------------------------- numbers and flags

  function Be16(x: U16): seq<Byte> {
    [x / 256, x % 256]
  }

  function Be32(x: U32): seq<Byte> {
    [x / 0x100_0000, x / 0x1_0000 % 256, x / 256 % 256, x % 256]
  }

  function Word32(a: Byte, b: Byte, c: Byte, d: Byte): U32 {
    0x100_0000 * a as int + 0x1_0000 * b as int + 256 * c as int + d
  }

  function Bit(b: bool): Byte {
    if b then 1 else 0
  }

  /** The flag bits as they appear in byte 13 of the header. */
  function FlagByte(f: Flags): Byte {
    Bit(f.fin) as int + 2 * Bit(f.syn) as int + 4 * Bit(f.rst) as int + 8 * Bit(f.psh) as int + 16 * Bit(f.ack) as int
  }

  function FlagsOf(b: Byte): Flags {
    Flags(b % 2 == 1, b / 2 % 2 == 1, b / 4 % 2 == 1, b / 8 % 2 == 1, b / 16 % 2 == 1)
  }

  lemma Words32(x: U32)
    ensures var b := Be32(x); Word32(b[0], b[1], b[2], b[3]) == x
  {
    assert x / 0x1_0000 / 256 == x / 0x100_0000;
    assert x / 256 / 256 == x / 0x1_0000;
  }

  lemma FlagsRoundTrip(f: Flags)
    ensures FlagsOf(FlagByte(f)) == f
  {
  }

  // ---------------------------------------------------------------- headers

  datatype TcpHeader = TcpHeader(
    srcPort: U16, dstPort: U16, seqNum: U32, ackNum: U32,
    dataOffsetReserved: Byte, flags: Byte, window: U16, checksum: U16, urgentPtr: U16)

  datatype IpHeader = IpHeader(
    version: Byte, ihl: Byte, tos: Byte, totalLength: U16, identification: U16,
    flags: U16, fragmentOffset: U16, ttl: Byte, protocol: Byte, headerChecksum: U16,
    srcAddr: U32, dstAddr: U32)

  function TcpBytes(h: TcpHeader): (r: seq<Byte>)
    ensures |r| == TCP_HEADER_LEN
  {
    Be16(h.srcPort) + Be16(h.dstPort) + Be32(h.seqNum) + Be32(h.ackNum)
    + [h.dataOffsetReserved, h.flags] + Be16(h.window) + Be16(h.checksum) + Be16(h.urgentPtr)
  }

  function ParseTcpHeader(bytes: seq<Byte>): Option<TcpHeader> {
    if |bytes| < TCP_HEADER_LEN then None else
      Some(TcpHeader(
        Word(bytes[0], bytes[1]), Word(bytes[2], bytes[3]),
        Word32(bytes[4], bytes[5], bytes[6], bytes[7]), Word32(bytes[8], bytes[9], bytes[10], bytes[11]),
        bytes[12], bytes[13],
        Word(bytes[14], bytes[15]), Word(bytes[16], bytes[17]), Word(bytes[18], bytes[19])))
  }

  /** Parsing undoes building, whatever follows the header. */
  lemma TcpHeaderRoundTrip(h: TcpHeader, rest: seq<Byte>)
    ensures ParseTcpHeader(TcpBytes(h) + rest) == Some(h)
  {
    Words32(h.seqNum);
    Words32(h.ackNum);
  }

  function VersionByte(h: IpHeader): Byte {
    h.version as int * 16 % 256 + h.ihl % 16
  }

  function FlagsFrag(h: IpHeader): U16 {
    h.flags % 8 * 0x2000 + h.fragmentOffset % 0x2000
  }

  /** The header with its checksum field as given; `build_ip_header` puts the checksum there. */
  function IpBytes(h: IpHeader): (r: seq<Byte>)
    ensures |r| == IP_HEADER_LEN
  {
    [VersionByte(h), h.tos] + Be16(h.totalLength) + Be16(h.identification) + Be16(FlagsFrag(h))
    + [h.ttl, h.protocol] + Be16(h.headerChecksum) + Be32(h.srcAddr) + Be32(h.dstAddr)
  }

  function ParseIpHeader(bytes: seq<Byte>): Option<IpHeader> {
    if |bytes| < IP_HEADER_LEN then None
    else if bytes[0] / 16 != 4 then None
    else
      var flagsFrag := Word(bytes[6], bytes[7]);
      Some(IpHeader(
        bytes[0] / 16, bytes[0] % 16, bytes[1], Word(bytes[2], bytes[3]), Word(bytes[4], bytes[5]),
        flagsFrag / 0x2000 % 8, flagsFrag % 0x2000, bytes[8], bytes[9], Word(bytes[10], bytes[11]),
        Word32(bytes[12], bytes[13], bytes[14], bytes[15]), Word32(bytes[16], bytes[17], bytes[18], bytes[19])))
  }

  /** Fields in the ranges their bits allow, and the only version the parser takes. */
  predicate IpFieldsFit(h: IpHeader) {
    h.version == 4 && h.ihl < 16 && h.flags < 8 && h.fragmentOffset < 0x2000
  }

  lemma PackedFields(h: IpHeader)
    requires IpFieldsFit(h)
    ensures VersionByte(h) / 16 == 4 && VersionByte(h) % 16 == h.ihl
    ensures FlagsFrag(h) / 0x2000 % 8 == h.flags && FlagsFrag(h) % 0x2000 == h.fragmentOffset
  {
  }

  lemma Words16(x: U16)
    ensures Word(Be16(x)[0], Be16(x)[1]) == x
  {
  }

  lemma IpHeaderParses(h: IpHeader, rest: seq<Byte>)
    requires IpFieldsFit(h)
    ensures ParseIpHeader(IpBytes(h) + rest) == Some(h)
  {
    var b := IpBytes(h) + rest;
    PackedFields(h);
    Words32(h.srcAddr);
    Words32(h.dstAddr);
    Words16(FlagsFrag(h));
    assert b[0] == VersionByte(h);
    assert Word(b[6], b[7]) == FlagsFrag(h);
  }

  /** Parsing undoes building exactly when every field fits its bits. */
  lemma IpHeaderRoundTrip(h: IpHeader, rest: seq<Byte>)
    ensures ParseIpHeader(IpBytes(h) + rest) == Some(h) <==> IpFieldsFit(h)
  {
    if IpFieldsFit(h) {
      IpHeaderParses(h, rest);
    } else {
      ParsedFieldsFit(IpBytes(h) + rest);
    }
  }

  lemma ParsedFieldsFit(bytes: seq<Byte>)
    ensures ParseIpHeader(bytes).Some? ==> IpFieldsFit(ParseIpHeader(bytes).value)
  {
  }

  // ---------------------------------------------------------------- building in place

  /** `copy_from_slice` into a sub-slice. */
  method Put(out: array<Byte>, at: nat, bytes: seq<Byte>)
    requires at + |bytes| <= out.Length
    modifies out
    ensures forall i :: 0 <= i < out.Length ==>
      out[i] == if at <= i < at + |bytes| then bytes[i - at] else old(out[i])
  {
    forall i | 0 <= i < |bytes| {
      out[at + i] := bytes[i];
    }
  }

  /** Writes the header over the first 20 bytes of `out` and leaves the rest alone. */
  method BuildTcpHeader(h: TcpHeader, out: array<Byte>)
    requires out.Length >= TCP_HEADER_LEN
    modifies out
    ensures out[..] == TcpBytes(h) + old(out[TCP_HEADER_LEN..])
  {
    Put(out, 0, Be16(h.srcPort) + Be16(h.dstPort));
    Put(out, 4, Be32(h.seqNum));
    Put(out, 8, Be32(h.ackNum));
    out[12] := h.dataOffsetReserved;
    out[13] := h.flags;
    Put(out, 14, Be16(h.window) + Be16(h.checksum) + Be16(h.urgentPtr));
  }

  /** The header as `build_ip_header` leaves it: checksum computed over the header with a zero field. */
  function SealedIpBytes(h: IpHeader): (r: seq<Byte>)
    ensures |r| == IP_HEADER_LEN
  {
    var zeroed := IpBytes(h.(headerChecksum := 0));
    Filled(zeroed, 10, Checksum16(zeroed))
  }

  method BuildIpHeader(h: IpHeader, out: array<Byte>)
    requires out.Length >= IP_HEADER_LEN
    modifies out
    ensures out[..] == SealedIpBytes(h) + old(out[IP_HEADER_LEN..])
  {
    Put(out, 0, [VersionByte(h), h.tos] + Be16(h.totalLength) + Be16(h.identification));
    Put(out, 6, Be16(FlagsFrag(h)) + [h.ttl, h.protocol, 0, 0]);
    Put(out, 12, Be32(h.srcAddr) + Be32(h.dstAddr));
    assert out[..IP_HEADER_LEN] == IpBytes(h.(headerChecksum := 0));
    var csum := ComputeChecksum16(out[..IP_HEADER_LEN]);
    Put(out, 10, Be16(csum));
  }

  /** `verify_ip_checksum`. */
  predicate VerifyIpChecksum(bytes: seq<Byte>) {
    |bytes| >= IP_HEADER_LEN && Checksum16(bytes[..IP_HEADER_LEN]) == 0
  }

  /** Every header that is built verifies. */
  lemma BuiltHeaderVerifies(h: IpHeader, rest: seq<Byte>)
    ensures VerifyIpChecksum(SealedIpBytes(h) + rest)
  {
    var zeroed := IpBytes(h.(headerChecksum := 0));
    FilledVerifies(zeroed, 10);
    assert (SealedIpBytes(h) + rest)[..IP_HEADER_LEN] == SealedIpBytes(h);
  }

  /** Sealing is building with the computed checksum in the header. */
  lemma SealedIs(h: IpHeader)
    ensures SealedIpBytes(h) == IpBytes(h.(headerChecksum := Checksum16(IpBytes(h.(headerChecksum := 0)))))
  {
  }

  // ---------------------------------------------------------------- the TCP checksum

  function PseudoHeader(src: U32, dst: U32, len: nat): (r: seq<Byte>)
    ensures |r| == 12
  {
    Be32(src) + Be32(dst) + [0, PROTO_TCP] + Be16(len % 0x1_0000)
  }

  /** `tcp_checksum`: the segment behind its pseudo-header. */
  function TcpChecksum(src: U32, dst: U32, segment: seq<Byte>): U16 {
    Checksum16(PseudoHeader(src, dst, |segment|) + segment)
  }

  method ComputeTcpChecksum(src: U32, dst: U32, segment: seq<Byte>) returns (c: U16)
    requires |segment| <= 131062
    ensures c == TcpChecksum(src, dst, segment)
  {
    c := ComputeChecksum16(PseudoHeader(src, dst, |segment|) + segment);
  }

  /** Filling the checksum field of a segment makes the whole of it, pseudo-header included, verify. */
  lemma FilledSegmentVerifies(src: U32, dst: U32, segment: seq<Byte>)
    requires |segment| >= TCP_HEADER_LEN && segment[16] == 0 && segment[17] == 0
    ensures TcpChecksum(src, dst, Filled(segment, 16, TcpChecksum(src, dst, segment))) == 0
  {
    var p := PseudoHeader(src, dst, |segment|);
    var c := TcpChecksum(src, dst, segment);
    FilledVerifies(p + segment, 28);
    assert p + Filled(segment, 16, c) == Filled(p + segment, 28, c);
  }

  lemma SegmentCorruptionDetected(src: U32, dst: U32, segment: seq<Byte>, i: nat, v: Byte)
    requires TcpChecksum(src, dst, segment) == 0 && i < |segment| && v != segment[i]
    ensures TcpChecksum(src, dst, segment[i := v]) != 0
  {
    var p := PseudoHeader(src, dst, |segment|);
    OneByteDetected(p + segment, 12 + i, v);
    assert (p + segment)[12 + i := v] == p + segment[i := v];
  }

  // ---------------------------------------------------------------- whole packets

  datatype ConnectionKey = ConnectionKey(localAddr: U32, localPort: U16, remoteAddr: U32, remotePort: U16)

  function Mirror(k: ConnectionKey): ConnectionKey {
    ConnectionKey(k.remoteAddr, k.remotePort, k.localAddr, k.localPort)
  }

  function HeaderFor(k: ConnectionKey, m: Segment): TcpHeader {
    TcpHeader(k.localPort, k.remotePort, m.seqNum, m.ackNum, 80, FlagByte(m.flags), m.window, 0, 0)
  }

  function SegmentBytes(k: ConnectionKey, m: Segment): (r: seq<Byte>)
    ensures |r| == TCP_HEADER_LEN + |m.data|
  {
    var unsealed := TcpBytes(HeaderFor(k, m)) + m.data;
    Filled(unsealed, 16, TcpChecksum(k.localAddr, k.remoteAddr, unsealed))
  }

  function IpHeaderFor(k: ConnectionKey, len: nat): IpHeader {
    IpHeader(4, 5, 0, (IP_HEADER_LEN + len) % 0x1_0000, 0, 0, 0, 64, PROTO_TCP, 0, k.localAddr, k.remoteAddr)
  }

  /** The packet `send_segment` writes for a segment. */
  function Packet(k: ConnectionKey, m: Segment): (r: seq<Byte>)
    ensures |r| == IP_HEADER_LEN + TCP_HEADER_LEN + |m.data|
  {
    var segment := SegmentBytes(k, m);
    SealedIpBytes(IpHeaderFor(k, |segment|)) + segment
  }

  method BuildSegment(k: ConnectionKey, m: Segment) returns (segment: array<Byte>)
    requires |m.data| <= 65495
    ensures fresh(segment) && segment[..] == SegmentBytes(k, m)
  {
    segment := new Byte[TCP_HEADER_LEN + |m.data|](_ => 0);
    BuildTcpHeader(HeaderFor(k, m), segment);
    Put(segment, TCP_HEADER_LEN, m.data);
    assert segment[..] == TcpBytes(HeaderFor(k, m)) + m.data;
    var csum := ComputeTcpChecksum(k.localAddr, k.remoteAddr, segment[..]);
    Put(segment, 16, Be16(csum));
  }

  /** `send_segment`, up to the write to the device. */
  method BuildPacket(k: ConnectionKey, m: Segment) returns (packet: array<Byte>)
    requires |m.data| <= 65495
    ensures fresh(packet) && packet[..] == Packet(k, m)
  {
    var segment := BuildSegment(k, m);
    packet := new Byte[IP_HEADER_LEN + segment.Length](_ => 0);
    BuildIpHeader(IpHeaderFor(k, segment.Length), packet);
    Put(packet, IP_HEADER_LEN, segment[..]);
  }

  /** The decoding half of `dispatch_ip_packet` and `handle_segment`: what reaches the connection table, if anything. */
  function Decode(buf: seq<Byte>): Option<(ConnectionKey, Segment)> {
    match ParseIpHeader(buf)
    case None => None
    case Some(ip) =>
      if !VerifyIpChecksum(buf) || ip.ihl as int * 4 > |buf| || ip.protocol != PROTO_TCP then None
      else DecodeTcp(ip, buf[ip.ihl as int * 4..])
  }

  function DecodeTcp(ip: IpHeader, payload: seq<Byte>): Option<(ConnectionKey, Segment)> {
    match ParseTcpHeader(payload)
    case None => None
    case Some(h) =>
      if TcpChecksum(ip.srcAddr, ip.dstAddr, payload) != 0 then None
      else Some((ConnectionKey(ip.dstAddr, h.dstPort, ip.srcAddr, h.srcPort),
                 Segment(h.seqNum, h.ackNum, FlagsOf(h.flags), h.window, payload[TCP_HEADER_LEN..])))
  }

  /** The sealed segment is the header with its checksum, then the data. */
  lemma SegmentBytesAre(k: ConnectionKey, m: Segment)
    ensures exists c: U16 :: SegmentBytes(k, m) == TcpBytes(HeaderFor(k, m).(checksum := c)) + m.data
    ensures TcpChecksum(k.localAddr, k.remoteAddr, SegmentBytes(k, m)) == 0
  {
    var unsealed := TcpBytes(HeaderFor(k, m)) + m.data;
    var c := TcpChecksum(k.localAddr, k.remoteAddr, unsealed);
    FilledSegmentVerifies(k.localAddr, k.remoteAddr, unsealed);
    assert Filled(unsealed, 16, c) == TcpBytes(HeaderFor(k, m).(checksum := c)) + m.data;
  }

  lemma SegmentDecodes(k: ConnectionKey, m: Segment, ip: IpHeader)
    requires ip.srcAddr == k.localAddr && ip.dstAddr == k.remoteAddr
    ensures DecodeTcp(ip, SegmentBytes(k, m)) == Some((Mirror(k), m))
  {
    SegmentBytesAre(k, m);
    var c: U16 :| SegmentBytes(k, m) == TcpBytes(HeaderFor(k, m).(checksum := c)) + m.data;
    TcpHeaderRoundTrip(HeaderFor(k, m).(checksum := c), m.data);
    FlagsRoundTrip(m.flags);
    assert SegmentBytes(k, m)[TCP_HEADER_LEN..] == m.data;
  }

  /** The IP header of a packet parses, verifies, and names both ends. */
  lemma PacketHeader(k: ConnectionKey, m: Segment, tail: seq<Byte>)
    ensures var buf := SealedIpBytes(IpHeaderFor(k, TCP_HEADER_LEN + |m.data|)) + tail;
      && VerifyIpChecksum(buf)
      && ParseIpHeader(buf).Some?
      && var ip := ParseIpHeader(buf).value;
         ip.ihl == 5 && ip.protocol == PROTO_TCP && ip.srcAddr == k.localAddr && ip.dstAddr == k.remoteAddr
  {
    var h := IpHeaderFor(k, TCP_HEADER_LEN + |m.data|);
    BuiltHeaderVerifies(h, tail);
    SealedIs(h);
    IpHeaderParses(h.(headerChecksum := Checksum16(IpBytes(h.(headerChecksum := 0)))), tail);
  }

  /** What `send_segment` writes is what the other side's table receives, under the mirrored key. */
  lemma WireRoundTrip(k: ConnectionKey, m: Segment)
    ensures Decode(Packet(k, m)) == Some((Mirror(k), m))
  {
    var segment := SegmentBytes(k, m);
    PacketHeader(k, m, segment);
    assert Packet(k, m)[20..] == segment;
    SegmentDecodes(k, m, ParseIpHeader(Packet(k, m)).value);
  }

  /** So does a segment behind any other good header for these two ends, with as many options as its length says. */
  lemma OptionsSkipped(k: ConnectionKey, m: Segment, h: IpHeader, options: seq<Byte>)
    requires IpFieldsFit(h) && h.protocol == 6 && h.srcAddr == k.localAddr && h.dstAddr == k.remoteAddr
    requires |options| == 4 * h.ihl as int - 20
    ensures Decode(SealedIpBytes(h) + options + SegmentBytes(k, m)) == Some((Mirror(k), m))
  {
    var tail := options + SegmentBytes(k, m);
    var buf := SealedIpBytes(h) + tail;
    BuiltHeaderVerifies(h, tail);
    SealedIs(h);
    IpHeaderParses(h.(headerChecksum := Checksum16(IpBytes(h.(headerChecksum := 0)))), tail);
    assert SealedIpBytes(h) + options + SegmentBytes(k, m) == buf;
    assert buf[h.ihl as int * 4..] == SegmentBytes(k, m);
    SegmentDecodes(k, m, ParseIpHeader(buf).value);
  }

  /** A packet with any one byte changed is dropped, wherever the byte is. */
  lemma CorruptionDropped(k: ConnectionKey, m: Segment, i: nat, v: Byte)
    requires i < |Packet(k, m)| && v != Packet(k, m)[i]
    ensures Decode(Packet(k, m)[i := v]) == None
  {
    var segment := SegmentBytes(k, m);
    var packet := Packet(k, m);
    PacketHeader(k, m, segment);
    if i < IP_HEADER_LEN {
      OneByteDetected(packet[..IP_HEADER_LEN], i, v);
      assert packet[i := v][..IP_HEADER_LEN] == packet[..IP_HEADER_LEN][i := v];
    } else {
      var tail := segment[i - IP_HEADER_LEN := v];
      PacketHeader(k, m, tail);
      SegmentBytesAre(k, m);
      SegmentCorruptionDetected(k.localAddr, k.remoteAddr, segment, i - IP_HEADER_LEN, v);
      assert packet[i := v] == SealedIpBytes(IpHeaderFor(k, |segment|)) + tail;
      assert packet[i := v][20..] == tail;
    }
  }

  // ---------------------------------------------------------------- the layout of a packet

  /** The number that stands in four bytes, most significant first. */
  predicate Stands32(b: seq<Byte>, at: nat, x: U32)
    requires at + 4 <= |b|
  {
    x == b[at] as int * 0x100_0000 + b[at + 1] as int * 0x1_0000 + b[at + 2] as int * 0x100 + b[at + 3] as int
  }

  predicate Stands16(b: seq<Byte>, at: nat, x: int)
    requires at + 2 <= |b|
  {
    x == b[at] as int * 0x100 + b[at + 1] as int
  }

  /** The IP header of a packet, field by field (section 3.1 of RFC 791). */
  predicate IpLayout(b: seq<Byte>, k: ConnectionKey)
    requires |b| >= 20
  {
    && b[0] == 0x45 && b[1] == 0 && Stands16(b, 2, |b|) && Stands16(b, 4, 0) && Stands16(b, 6, 0)
    && b[8] == 64 && b[9] == 6
    && Stands32(b, 12, k.localAddr) && Stands32(b, 16, k.remoteAddr)
  }

  /** The TCP header at `at` and what follows it (section 3.1 of RFC 9293). */
  predicate TcpLayout(b: seq<Byte>, at: nat, k: ConnectionKey, m: Segment)
    requires |b| >= at + 20
  {
    && Stands16(b, at, k.localPort) && Stands16(b, at + 2, k.remotePort)
    && Stands32(b, at + 4, m.seqNum) && Stands32(b, at + 8, m.ackNum)
    && b[at + 12] == 0x50
    && b[at + 13] == (if m.flags.fin then 0x01 else 0) + (if m.flags.syn then 0x02 else 0)
                   + (if m.flags.rst then 0x04 else 0) + (if m.flags.psh then 0x08 else 0)
                   + (if m.flags.ack then 0x10 else 0)
    && Stands16(b, at + 14, m.window) && Stands16(b, at + 18, 0)
    && b[at + 20..] == m.data
  }

  lemma Be32Stands(b: seq<Byte>, at: nat, x: U32)
    requires at + 4 <= |b| && b[at..at + 4] == Be32(x)
    ensures Stands32(b, at, x)
  {
    Words32(x);
    var w := b[at..at + 4];
    assert w[0] == b[at] && w[1] == b[at + 1] && w[2] == b[at + 2] && w[3] == b[at + 3];
  }

  lemma Be16Stands(b: seq<Byte>, at: nat, x: U16)
    requires at + 2 <= |b| && b[at..at + 2] == Be16(x)
    ensures Stands16(b, at, x)
  {
    var w := b[at..at + 2];
    assert w[0] == b[at] && w[1] == b[at + 1];
  }

  lemma TcpBytesLayout(k: ConnectionKey, m: Segment, c: U16)
    ensures TcpLayout(TcpBytes(HeaderFor(k, m).(checksum := c)) + m.data, 0, k, m)
  {
    var b := TcpBytes(HeaderFor(k, m).(checksum := c)) + m.data;
    Be16Stands(b, 0, k.localPort);
    Be16Stands(b, 2, k.remotePort);
    Be32Stands(b, 4, m.seqNum);
    Be32Stands(b, 8, m.ackNum);
    Be16Stands(b, 14, m.window);
    Be16Stands(b, 18, 0);
  }

  lemma LayoutShifts(p: seq<Byte>, b: seq<Byte>, k: ConnectionKey, m: Segment)
    requires |b| >= 20 && TcpLayout(b, 0, k, m)
    ensures TcpLayout(p + b, |p|, k, m)
  {
    var q := p + b;
    assert forall i :: 0 <= i < 20 ==> q[|p| + i] == b[i];
    assert q[|p|..] == b && q[|p| + 20..] == b[20..];
  }

  lemma IpBytesLayout(h: IpHeader, tail: seq<Byte>, k: ConnectionKey)
    requires h.version == 4 && h.ihl == 5 && h.tos == 0 && h.totalLength == 20 + |tail|
    requires h.identification == 0 && h.flags == 0 && h.fragmentOffset == 0 && h.ttl == 64 && h.protocol == 6
    requires h.srcAddr == k.localAddr && h.dstAddr == k.remoteAddr
    ensures IpLayout(IpBytes(h) + tail, k)
  {
    var b := IpBytes(h) + tail;
    Be16Stands(b, 2, h.totalLength);
    Be16Stands(b, 4, 0);
    Be16Stands(b, 6, 0);
    Be32Stands(b, 12, k.localAddr);
    Be32Stands(b, 16, k.remoteAddr);
  }

  lemma HeaderLayout(k: ConnectionKey, tail: seq<Byte>)
    requires |tail| <= 65515
    ensures IpLayout(SealedIpBytes(IpHeaderFor(k, |tail|)) + tail, k)
  {
    var h := IpHeaderFor(k, |tail|);
    SealedIs(h);
    IpBytesLayout(h.(headerChecksum := Checksum16(IpBytes(h.(headerChecksum := 0)))), tail, k);
  }

  lemma SegmentLayout(k: ConnectionKey, m: Segment)
    ensures TcpLayout(SegmentBytes(k, m), 0, k, m)
  {
    SegmentBytesAre(k, m);
    var c: U16 :| SegmentBytes(k, m) == TcpBytes(HeaderFor(k, m).(checksum := c)) + m.data;
    TcpBytesLayout(k, m, c);
  }

  /**
   Every field of a packet stands where the formats say, most significant byte first: the total length is the
   length of the packet, and the header lengths point at the TCP header and at the data.
   */
  lemma PacketLayout(k: ConnectionKey, m: Segment)
    requires |m.data| <= 65495
    ensures IpLayout(Packet(k, m), k) && TcpLayout(Packet(k, m), 20, k, m)
  {
    var segment := SegmentBytes(k, m);
    HeaderLayout(k, segment);
    SegmentLayout(k, m);
    LayoutShifts(SealedIpBytes(IpHeaderFor(k, |segment|)), segment, k, m);
  }

  /** What a parser reads in a packet's IP header, in numbers. */
  lemma PacketIpFields(k: ConnectionKey, m: Segment)
    requires |m.data| <= 65495
    ensures ParseIpHeader(Packet(k, m)).Some?
    ensures var ip := ParseIpHeader(Packet(k, m)).value;
      && ip.version == 4 && ip.ihl as int * 4 == 20 && ip.totalLength == |Packet(k, m)| && ip.ttl == 64
      && ip.protocol == 6 && ip.identification == 0 && ip.flags == 0 && ip.fragmentOffset == 0
  {
    PacketLayout(k, m);
    ParsedFromLayout(Packet(k, m), k);
  }

  lemma ParsedFromLayout(b: seq<Byte>, k: ConnectionKey)
    requires |b| >= 20 && IpLayout(b, k)
    ensures ParseIpHeader(b).Some?
    ensures var ip := ParseIpHeader(b).value;
      && ip.version == 4 && ip.ihl as int * 4 == 20 && ip.totalLength == |b| && ip.ttl == 64
      && ip.protocol == 6 && ip.identification == 0 && ip.flags == 0 && ip.fragmentOffset == 0
  {
    assert b[6] == 0 && b[7] == 0;
  }

  /** And in its TCP header. */
  lemma PacketTcpFields(k: ConnectionKey, m: Segment)
    requires |m.data| <= 65495
    ensures ParseTcpHeader(Packet(k, m)[20..]).Some?
    ensures var h := ParseTcpHeader(Packet(k, m)[20..]).value;
      h.dataOffsetReserved / 16 * 4 == 20 && h.dataOffsetReserved % 16 == 0 && h.urgentPtr == 0
  {
    SegmentBytesAre(k, m);
    var c: U16 :| SegmentBytes(k, m) == TcpBytes(HeaderFor(k, m).(checksum := c)) + m.data;
    TcpHeaderRoundTrip(HeaderFor(k, m).(checksum := c), m.data);
    assert Packet(k, m)[20..] == SegmentBytes(k, m);
  }

  // ---------------------------------------------------------------- what the TCP checksum covers

  lemma FirstWord(b: seq<Byte>)
    requires |b| >= 2
    ensures WordSum(b) == 256 * b[0] as int + b[1] as int + WordSum(b[2..])
  {
  }

  /** The sum of the two words of a 32-bit number. */
  function Halves(x: U32): nat {
    x / 0x1_0000 + x % 0x1_0000
  }

  lemma FourBytesSum(x: U32, rest: seq<Byte>)
    ensures WordSum(Be32(x) + rest) == Halves(x) + WordSum(rest)
  {
    var b := Be32(x) + rest;
    FirstWord(b);
    FirstWord(b[2..]);
    assert b[2..][2..] == rest && b[2..][0] == b[2] && b[2..][1] == b[3];
    TwoWords(x);
  }

  lemma TwoWords(x: U32)
    ensures var b := Be32(x);
      256 * b[0] as int + b[1] as int == x / 0x1_0000 && 256 * b[2] as int + b[3] as int == x % 0x1_0000
  {
    assert x / 0x1_0000 / 256 == x / 0x100_0000;
    assert x / 256 / 256 == x / 0x1_0000;
  }

  lemma LastWordsSum(len: nat)
    requires len < 0x1_0000
    ensures WordSum([0, PROTO_TCP] + Be16(len)) == 6 + len
  {
    var q := [0, PROTO_TCP] + Be16(len);
    FirstWord(q);
    FirstWord(q[2..]);
    assert q[2..] == Be16(len) && q[2..][2..] == [];
  }

  lemma PseudoSum(src: U32, dst: U32, len: nat)
    requires len < 0x1_0000
    ensures WordSum(PseudoHeader(src, dst, len)) == Halves(src) + Halves(dst) + 6 + len
  {
    var q := [0, PROTO_TCP] + Be16(len);
    assert PseudoHeader(src, dst, len) == Be32(src) + (Be32(dst) + q);
    FourBytesSum(src, Be32(dst) + q);
    FourBytesSum(dst, q);
    LastWordsSum(len);
  }

  /** Adds up to nothing in one's complement arithmetic. */
  predicate Cancels(sum: nat) {
    sum % 0xFFFF == 0
  }

  lemma VerifiesBehind(p: seq<Byte>, rest: seq<Byte>, sum: nat)
    requires |p| == 12 && WordSum(p) > 0 && sum == WordSum(p) + WordSum(rest)
    ensures Checksum16(p + rest) == 0 <==> Cancels(sum)
  {
    VerifiesIff(p + rest);
    WordSumPrefix(p + rest, 12);
    assert (p + rest)[..12] == p && (p + rest)[12..] == rest;
  }

  /**
   A segment passes the TCP checksum exactly when the words of both addresses, the protocol number 6, the
   segment's length and its own words add up to a multiple of 65535 (section 3.1 of RFC 9293).
   */
  lemma TcpChecksumCovers(src: U32, dst: U32, segment: seq<Byte>)
    requires |segment| < 0x1_0000
    ensures TcpChecksum(src, dst, segment) == 0
       <==> Cancels(Halves(src) + Halves(dst) + 6 + |segment| + WordSum(segment))
  {
    PseudoSum(src, dst, |segment|);
    VerifiesBehind(PseudoHeader(src, dst, |segment|), segment,
                   Halves(src) + Halves(dst) + 6 + |segment| + WordSum(segment));
  }
}
