/** The packet path: source and destination of an IP packet, and what happens in place in the two packet buffers.

    A slice outside its buffer stops the program; the model makes that an outcome, `Panic`, instead of ruling it
    out. */
module Handle {
  import opened Wrappers
  import opened Prefixes
  import opened PeerNets

  const DATA_HEADER_SIZE := 16
  const TAG_FOOTER_SIZE := 16

  // ---------------------------------------------------------------- addresses of an IP packet

  function AddressOf(f: Family, bs: seq<byte>): Addr
    requires 8 * |bs| == Width(f)
  {
    Prefix(f, BytesToBits(bs))
  }

  function IpSrc(buf: seq<byte>): Option<Addr> {
    if buf == [] then None
    else if buf[0] / 16 == 4 && |buf| >= 20 then Some(AddressOf(V4, buf[12..16]))
    else if buf[0] / 16 == 6 && |buf| >= 40 then Some(AddressOf(V6, buf[8..24]))
    else None
  }

  function IpDst(buf: seq<byte>): Option<Addr> {
    if buf == [] then None
    else if buf[0] / 16 == 4 && |buf| >= 20 then Some(AddressOf(V4, buf[16..20]))
    else if buf[0] / 16 == 6 && |buf| >= 40 then Some(AddressOf(V6, buf[24..40]))
    else None
  }

  /** The address is made of these bytes of the packet, in this order, each most significant bit first. */
  ghost predicate ReadAt(a: Option<Addr>, f: Family, buf: seq<byte>, lo: nat) {
    && a.Some? && a.value.family == f && lo + Width(f) / 8 <= |buf|
    && forall i :: 0 <= i < Width(f) / 8 ==> a.value.bits[8 * i..8 * i + 8] == ToBits(buf[lo + i], 8)
  }

  lemma AddressBytes(f: Family, buf: seq<byte>, lo: nat)
    requires lo + Width(f) / 8 <= |buf|
    ensures ReadAt(Some(AddressOf(f, buf[lo..lo + Width(f) / 8])), f, buf, lo)
  {
    var bs := buf[lo..lo + Width(f) / 8];
    forall i | 0 <= i < |bs| ensures BytesToBits(bs)[8 * i..8 * i + 8] == ToBits(buf[lo + i], 8) {
      BytesInOrder(bs, i);
    }
  }

  /** A packet of version 4 with a whole fixed header has its source in bytes 12 to 15 and its destination in bytes 16
      to 19. */
  lemma AddressesOfV4(buf: seq<byte>)
    requires |buf| >= 20 && buf[0] / 16 == 4
    ensures ReadAt(IpSrc(buf), V4, buf, 12) && ReadAt(IpDst(buf), V4, buf, 16)
  {
    AddressBytes(V4, buf, 12);
    AddressBytes(V4, buf, 16);
  }

  /** A packet of version 6 with a whole fixed header has its source in bytes 8 to 23 and its destination in bytes 24
      to 39. */
  lemma AddressesOfV6(buf: seq<byte>)
    requires |buf| >= 40 && buf[0] / 16 == 6
    ensures ReadAt(IpSrc(buf), V6, buf, 8) && ReadAt(IpDst(buf), V6, buf, 24)
  {
    AddressBytes(V6, buf, 8);
    AddressBytes(V6, buf, 24);
  }

  /** Nothing else has addresses. */
  lemma NoAddresses(buf: seq<byte>)
    requires buf != [] && buf[0] / 16 == 4 ==> |buf| < 20
    requires buf != [] && buf[0] / 16 == 6 ==> |buf| < 40
    ensures IpSrc(buf) == None && IpDst(buf) == None
  {
  }

  /** Different addresses are different: the bits of an address determine its bytes. */
  lemma BitsDetermineBytes(a: seq<byte>, b: seq<byte>)
    requires |a| == |b| && BytesToBits(a) == BytesToBits(b)
    ensures a == b
  {
    forall i | 0 <= i < |a| ensures a[i] == b[i] {
      BytesInOrder(a, i);
      BytesInOrder(b, i);
      ByteValue(a[i]);
      ByteValue(b[i]);
    }
  }

  // ---------------------------------------------------------------- the session manager and the platform

  /** What sending a payload to a peer leads to. With `Data` the payload has been encrypted in place to `sealed`. */
  datatype SendResult =
    | SendError
    | Maintenance(data: seq<byte>, to: SocketAddr)
    | Data(to: SocketAddr, header: seq<byte>, sealed: seq<byte>, tag: seq<byte>)

  /** What a datagram turns out to be. With `Read` the payload has been decrypted in place, right after the header. */
  datatype RecvResult =
    | RecvError
    | Noop
    | HandshakeComplete
    | Read(peer: PeerId, plain: seq<byte>)
    | Reply(data: seq<byte>)

  datatype Sessions = Sessions(send: (PeerId, seq<byte>) -> SendResult, recv: (SocketAddr, seq<byte>) -> RecvResult)

  /** The sizes the session manager promises. */
  ghost predicate Lawful(s: Sessions) {
    && (forall p, x :: s.send(p, x).Data? ==>
          && |s.send(p, x).header| == DATA_HEADER_SIZE && |s.send(p, x).tag| == TAG_FOOTER_SIZE
          && |s.send(p, x).sealed| == |x|)
    && (forall from, d :: s.recv(from, d).Read? ==>
          |s.recv(from, d).plain| + DATA_HEADER_SIZE + TAG_FOOTER_SIZE <= |d|)
    && (forall from, d :: s.recv(from, d).Reply? ==> |s.recv(from, d).data| <= |d|)
  }

  /** The header that the platform puts before every packet on the TUN, which depends on the packet's version. */
  datatype Platform = Platform(headerLen: nat, headerFor: seq<byte> -> seq<byte>)

  ghost predicate Fits(p: Platform) {
    p.headerLen <= DATA_HEADER_SIZE && forall packet :: |p.headerFor(packet)| == p.headerLen
  }

  function ConstMax(a: nat, b: nat): nat {
    if a <= b then b else a
  }

  function IpPacketStart(p: Platform): nat {
    ConstMax(DATA_HEADER_SIZE, p.headerLen)
  }

  function TunBufStart(p: Platform): (r: nat)
    ensures r + p.headerLen == IpPacketStart(p)
  {
    IpPacketStart(p) - p.headerLen
  }

  function NextMultipleOf16(n: nat): (r: nat)
    ensures n <= r < n + 16
  {
    (n + 15) / 16 * 16
  }

  function Zeros(n: nat): (r: seq<byte>)
    ensures |r| == n && forall i :: 0 <= i < n ==> r[i] == 0
  {
    seq(n, _ => 0)
  }

  function Padded(packet: seq<byte>): (r: seq<byte>)
    ensures |r| == NextMultipleOf16(|packet|) && packet <= r
  {
    packet + Zeros(NextMultipleOf16(|packet|) - |packet|)
  }

  /** Padding goes to the least multiple of 16 that holds the packet, with zeros. */
  lemma PaddingShape(packet: seq<byte>)
    ensures var r := Padded(packet);
            && |r| % 16 == 0 && (forall m: nat :: m % 16 == 0 && m >= |packet| ==> m >= |r|)
            && (forall i :: |packet| <= i < |r| ==> r[i] == 0)
  {
  }

  /** What a handler gives back: part of its buffer, for the TUN or for the network. */
  datatype Write = Nothing | Inbound(lo: nat, hi: nat) | Outbound(lo: nat, hi: nat, to: SocketAddr)

  datatype Outcome = Panic | Done(write: Write)

  // ---------------------------------------------------------------- what the handlers do to a buffer

  /** `buf` with `data` written at `lo`. */
  function Splice(buf: seq<byte>, lo: nat, data: seq<byte>): (r: seq<byte>)
    requires lo + |data| <= |buf|
    ensures |r| == |buf| && r[lo..lo + |data|] == data
    ensures r[..lo] == buf[..lo] && r[lo + |data|..] == buf[lo + |data|..]
  {
    buf[..lo] + data + buf[lo + |data|..]
  }

  /** What becomes of the buffer once the payload, at `start`, has been offered to the session manager. */
  function Emit(buf: seq<byte>, start: nat, payload: nat, r: SendResult): (Outcome, seq<byte>)
    requires DATA_HEADER_SIZE <= start && start + payload <= |buf|
  {
    match r
    case SendError => (Done(Nothing), buf)
    case Maintenance(data, to) =>
      if |data| > |buf| then (Panic, buf) else (Done(Outbound(0, |data|, to)), Splice(buf, 0, data))
    case Data(to, header, sealed, tag) =>
      if |sealed| != payload || |header| != DATA_HEADER_SIZE || |tag| != TAG_FOOTER_SIZE then (Panic, buf) else
      var secret := Splice(buf, start, sealed);
      var end := start + payload + TAG_FOOTER_SIZE;
      if end > |buf| then (Panic, secret) else
      (Done(Outbound(start - DATA_HEADER_SIZE, end, to)),
       Splice(secret, start - DATA_HEADER_SIZE, header + sealed + tag))
  }

  /** What the outbound handler finds before it asks the session manager: an end of the matter, or a peer and the
      padded payload for it. */
  datatype Ready = Stop(o: Outcome) | Go(peer: PeerId, payload: seq<byte>)

  function Prepare(net: PeerNet, p: Platform, buf: seq<byte>, filled: nat): (r: Ready)
    requires net.Valid()
    ensures r.Go? ==> IpPacketStart(p) + |r.payload| <= |buf|
  {
    var start := IpPacketStart(p);
    if filled < start || filled > |buf| then Stop(Panic) else
    var packet := buf[start..filled];
    if IpDst(packet).None? then Stop(Done(Nothing))
    else if start + |Padded(packet)| > |buf| then Stop(Panic)
    else Go(net.Lookup(IpDst(packet).value), Padded(packet))
  }

  function Intern(s: Sessions, net: PeerNet, p: Platform, buf: seq<byte>, filled: nat): (Outcome, seq<byte>)
    requires net.Valid()
  {
    match Prepare(net, p, buf, filled)
    case Stop(o) => (o, buf)
    case Go(peer, payload) =>
      Emit(Splice(buf, IpPacketStart(p), payload), IpPacketStart(p), |payload|, s.send(peer, payload))
  }

  function Extern(s: Sessions, net: PeerNet, p: Platform, from: SocketAddr, buf: seq<byte>): (Outcome, seq<byte>)
    requires net.Valid()
  {
    match s.recv(from, buf)
    case RecvError => (Done(Nothing), buf)
    case Noop => (Done(Nothing), buf)
    case HandshakeComplete => (Done(Nothing), buf)
    case Reply(data) =>
      if |data| > |buf| then (Panic, buf) else (Done(Outbound(0, |data|, from)), Splice(buf, 0, data))
    case Read(peer, plain) =>
      if DATA_HEADER_SIZE + |plain| > |buf| then (Panic, buf) else
      var clear := Splice(buf, DATA_HEADER_SIZE, plain);
      if plain == [] || IpSrc(plain).None? || net.Lookup(IpSrc(plain).value) != peer then (Done(Nothing), clear) else
      var lo, hi := TunBufStart(p), IpPacketStart(p) + |plain|;
      if hi > |buf| || |p.headerFor(plain)| != p.headerLen then (Panic, clear) else
      (Done(Inbound(lo, hi)), Splice(clear, lo, p.headerFor(plain)))
  }

  // ---------------------------------------------------------------- the handlers, in place

  /** Overwrites part of a buffer. */
  method CopyInto(buf: array<byte>, lo: nat, data: seq<byte>)
    requires lo + |data| <= buf.Length
    modifies buf
    ensures buf[..] == Splice(old(buf[..]), lo, data)
  {
    for i := 0 to |data|
      invariant buf[..lo] == old(buf[..lo])
      invariant buf[lo..lo + i] == data[..i]
      invariant buf[lo + i..] == old(buf[lo + i..])
    {
      buf[lo + i] := data[i];
      assert buf[lo..lo + i + 1] == buf[lo..lo + i] + [data[i]];
    }
    assert buf[..] == buf[..lo] + buf[lo..lo + |data|] + buf[lo + |data|..];
  }

  /** Writing behind a part of the buffer is writing the part again with more behind it. */
  lemma SpliceAfter(buf: seq<byte>, start: nat, filled: nat, more: seq<byte>)
    requires start <= filled && filled + |more| <= |buf|
    ensures Splice(buf, filled, more) == Splice(buf, start, buf[start..filled] + more)
  {
    assert buf[..filled] == buf[..start] + buf[start..filled];
  }

  /** Fills up with zeros to the next multiple of 16. */
  method PadInPlace(buf: array<byte>, start: nat, filled: nat)
    requires start <= filled && start + NextMultipleOf16(filled - start) <= buf.Length
    modifies buf
    ensures buf[..] == Splice(old(buf[..]), start, Padded(old(buf[start..filled])))
    ensures buf[start..start + NextMultipleOf16(filled - start)] == Padded(old(buf[start..filled]))
  {
    var zeros := Zeros(start + NextMultipleOf16(filled - start) - filled);
    CopyInto(buf, filled, zeros);
    SpliceAfter(old(buf[..]), start, filled, zeros);
  }

  /** Writes header and tag around the payload that `send` left in place. */
  method WriteFrame(buf: array<byte>, start: nat, header: seq<byte>, sealed: seq<byte>, tag: seq<byte>)
    requires |header| <= start && start + |sealed| + |tag| <= buf.Length && buf[start..start + |sealed|] == sealed
    modifies buf
    ensures buf[..] == Splice(old(buf[..]), start - |header|, header + sealed + tag)
  {
    ghost var before := buf[..];
    assert before[start..start + |sealed|] == sealed;
    FrameInPlace(before, start, header, sealed, tag);
    CopyInto(buf, start - |header|, header);
    CopyInto(buf, start + |sealed|, tag);
  }

  /** The checks, the lookup and the padding; with `Go` the payload is in place. */
  method PrepareInPlace(net: PeerNet, p: Platform, buf: array<byte>, filled: nat) returns (r: Ready)
    requires net.Valid()
    modifies buf
    ensures r == Prepare(net, p, old(buf[..]), filled)
    ensures buf[..] == if r.Stop? then old(buf[..]) else Splice(old(buf[..]), IpPacketStart(p), r.payload)
  {
    var start := IpPacketStart(p);
    if filled < start || filled > buf.Length {
      return Stop(Panic);
    }
    var packet := buf[start..filled];
    var dst := IpDst(packet);
    if dst.None? {
      return Stop(Done(Nothing));
    }
    var padTo := start + NextMultipleOf16(filled - start);
    if padTo > buf.Length {
      return Stop(Panic);
    }
    PadInPlace(buf, start, filled);
    return Go(net.Lookup(dst.value), buf[start..padTo]);
  }

  method HandleIntern(s: Sessions, net: PeerNet, p: Platform, buf: array<byte>, filled: nat) returns (o: Outcome)
    requires net.Valid() && Lawful(s)
    modifies buf
    ensures (o, buf[..]) == Intern(s, net, p, old(buf[..]), filled)
  {
    var ready := PrepareInPlace(net, p, buf, filled);
    match ready {
      case Stop(end) => o := end;
      case Go(peer, payload) =>
        var result := s.send(peer, payload);
        o := EmitInPlace(buf, IpPacketStart(p), IpPacketStart(p) + |payload|, result);
    }
  }

  method EmitInPlace(buf: array<byte>, start: nat, padTo: nat, r: SendResult) returns (o: Outcome)
    requires DATA_HEADER_SIZE <= start <= padTo <= buf.Length
    requires r.Data? ==> |r.header| == DATA_HEADER_SIZE && |r.sealed| == padTo - start && |r.tag| == TAG_FOOTER_SIZE
    modifies buf
    ensures (o, buf[..]) == Emit(old(buf[..]), start, padTo - start, r)
  {
    match r {
      case SendError =>
        return Done(Nothing);
      case Maintenance(data, to) =>
        if |data| > buf.Length {
          return Panic;
        }
        CopyInto(buf, 0, data);
        return Done(Outbound(0, |data|, to));
      case Data(to, header, sealed, tag) =>
        CopyInto(buf, start, sealed);
        if padTo + TAG_FOOTER_SIZE > buf.Length {
          return Panic;
        }
        WriteFrame(buf, start, header, sealed, tag);
        return Done(Outbound(start - DATA_HEADER_SIZE, padTo + TAG_FOOTER_SIZE, to));
    }
  }

  /** Writing header and tag around the payload that is already in place gives the whole frame. */
  lemma FrameInPlace(buf: seq<byte>, start: nat, header: seq<byte>, sealed: seq<byte>, tag: seq<byte>)
    requires |header| <= start && start + |sealed| + |tag| <= |buf| && buf[start..start + |sealed|] == sealed
    ensures Splice(Splice(buf, start - |header|, header), start + |sealed|, tag)
         == Splice(buf, start - |header|, header + sealed + tag)
  {
    var lo, hi := start - |header|, start + |sealed|;
    var one := Splice(buf, lo, header);
    assert buf[start..] == sealed + buf[hi..];
    assert one == buf[..lo] + header + sealed + buf[hi..];
    assert buf[lo + |header + sealed + tag|..] == buf[hi..][|tag|..];
  }

  method HandleExtern(s: Sessions, net: PeerNet, p: Platform, from: SocketAddr, buf: array<byte>) returns (o: Outcome)
    requires net.Valid() && Lawful(s) && Fits(p)
    modifies buf
    ensures (o, buf[..]) == Extern(s, net, p, from, old(buf[..]))
  {
    match s.recv(from, buf[..]) {
      case RecvError =>
      case Noop =>
      case HandshakeComplete =>
      case Reply(data) =>
        CopyInto(buf, 0, data);
        return Done(Outbound(0, |data|, from));
      case Read(peer, plain) =>
        CopyInto(buf, DATA_HEADER_SIZE, plain);
        if plain == [] {
          return Done(Nothing);
        }
        var src := IpSrc(plain);
        if src.None? {
          return Done(Nothing);
        }
        if net.Lookup(src.value) != peer {
          return Done(Nothing);
        }
        CopyInto(buf, TunBufStart(p), p.headerFor(plain));
        return Done(Inbound(TunBufStart(p), IpPacketStart(p) + |plain|));
    }
    return Done(Nothing);
  }

  // ---------------------------------------------------------------- buffer safety

  const BUFFER_SIZE := 2048

  /** The bound on the data path is tight: with a 2048-byte buffer, a routable packet that is answered with data goes
      through if and only if it has at most 2016 bytes. */
  lemma DataPathBound(s: Sessions, net: PeerNet, p: Platform, buf: seq<byte>, n: nat)
    requires net.Valid() && Lawful(s) && Fits(p) && |buf| == BUFFER_SIZE && IpPacketStart(p) + n <= BUFFER_SIZE
    requires var packet := buf[IpPacketStart(p)..IpPacketStart(p) + n];
             IpDst(packet).Some? && s.send(net.Lookup(IpDst(packet).value), Padded(packet)).Data?
    ensures Intern(s, net, p, buf, IpPacketStart(p) + n).0 == Panic <==> n > 2016
  {
  }

  /** Whatever the sessions answer, no packet of at most 2016 bytes leaves the buffer, provided handshake messages
      fit. Something is sent exactly if the packet has a destination and the session manager has something to send;
      nothing ever goes back to the TUN. A packet without a destination leaves no trace. */
  lemma SmallPacketsSafe(s: Sessions, net: PeerNet, p: Platform, buf: seq<byte>, n: nat)
    requires net.Valid() && Lawful(s) && Fits(p) && |buf| == BUFFER_SIZE && n <= 2016
    requires forall q, x :: s.send(q, x).Maintenance? ==> |s.send(q, x).data| <= BUFFER_SIZE
    ensures var (o, after) := Intern(s, net, p, buf, IpPacketStart(p) + n);
            var dst := IpDst(buf[IpPacketStart(p)..IpPacketStart(p) + n]);
            && o.Done? && |after| == |buf| && (o.write.Outbound? ==> o.write.lo <= o.write.hi <= |buf|)
            && !o.write.Inbound? && (dst.None? ==> o.write.Nothing? && after == buf)
            && (dst.Some? ==>
                  var payload := Padded(buf[IpPacketStart(p)..IpPacketStart(p) + n]);
                  o.write.Outbound? <==> !s.send(net.Lookup(dst.value), payload).SendError?)
  {
  }

  /** A read from the TUN shorter than the kernel header leaves no place for a packet, and stops the program. */
  lemma ShortReadPanics(s: Sessions, net: PeerNet, p: Platform, buf: seq<byte>, read: nat)
    requires net.Valid() && Fits(p) && TunBufStart(p) + read <= |buf| && DATA_HEADER_SIZE <= |buf|
    ensures read < p.headerLen ==> Intern(s, net, p, buf, TunBufStart(p) + read).0 == Panic
  {
  }

  /** The inbound direction never leaves the datagram. */
  lemma InboundSafe(s: Sessions, net: PeerNet, p: Platform, from: SocketAddr, buf: seq<byte>)
    requires net.Valid() && Lawful(s) && Fits(p)
    ensures var (o, after) := Extern(s, net, p, from, buf);
            o.Done? && |after| == |buf| && (!o.write.Nothing? ==> o.write.lo <= o.write.hi <= |buf|)
  {
  }

  /** Handshake messages leave exactly as the session manager made them: a reply to its sender, and a message in
      place of data to where the session manager says. */
  lemma ReplyVerbatim(s: Sessions, net: PeerNet, p: Platform, from: SocketAddr, datagram: seq<byte>)
    requires net.Valid() && Lawful(s) && Fits(p)
    ensures var (o, after) := Extern(s, net, p, from, datagram);
            && (o.Done? && o.write.Outbound? <==> s.recv(from, datagram).Reply?)
            && (s.recv(from, datagram).Reply? ==>
                  && o.write.to == from && o.write.lo <= o.write.hi <= |after|
                  && after[o.write.lo..o.write.hi] == s.recv(from, datagram).data)
  {
  }

  lemma MaintenanceVerbatim(s: Sessions, net: PeerNet, p: Platform, buf: seq<byte>, n: nat)
    requires net.Valid() && Lawful(s) && Fits(p) && |buf| == BUFFER_SIZE && n <= 2016
    requires var packet := buf[IpPacketStart(p)..IpPacketStart(p) + n];
             && IpDst(packet).Some? && s.send(net.Lookup(IpDst(packet).value), Padded(packet)).Maintenance?
             && |s.send(net.Lookup(IpDst(packet).value), Padded(packet)).data| <= BUFFER_SIZE
    ensures var packet := buf[IpPacketStart(p)..IpPacketStart(p) + n];
            var msg := s.send(net.Lookup(IpDst(packet).value), Padded(packet));
            var (o, after) := Intern(s, net, p, buf, IpPacketStart(p) + n);
            o == Done(Outbound(0, |msg.data|, msg.to)) && |msg.data| <= |after| && after[..|msg.data|] == msg.data
  {
  }

  // ---------------------------------------------------------------- framing round trip

  lemma PaddingKeepsAddresses(packet: seq<byte>, padded: seq<byte>)
    requires packet <= padded && IpDst(packet).Some?
    ensures IpDst(padded) == IpDst(packet) && IpSrc(padded) == IpSrc(packet) && IpSrc(packet).Some?
  {
    assert padded[12..16] == packet[12..16] && padded[16..20] == packet[16..20];
    if |packet| >= 40 {
      assert padded[8..24] == packet[8..24] && padded[24..40] == packet[24..40];
    }
  }

  /** The receiving end opens every frame the sending end seals for it, as coming from `pa`. */
  ghost predicate Paired(sa: Sessions, pb: PeerId, from: SocketAddr, sb: Sessions, pa: PeerId) {
    forall x :: sa.send(pb, x).Data? ==>
      var d := sa.send(pb, x); sb.recv(from, d.header + d.sealed + d.tag) == Read(pa, x)
  }

  /** The data path writes header, ciphertext of the padded packet, and tag, and nothing else of the buffer changes.
      */
  lemma InternFrames(s: Sessions, net: PeerNet, p: Platform, buf: seq<byte>, packet: seq<byte>)
    requires net.Valid() && Lawful(s) && Fits(p)
    requires DATA_HEADER_SIZE + |Padded(packet)| + TAG_FOOTER_SIZE <= |buf|
    requires buf[DATA_HEADER_SIZE..DATA_HEADER_SIZE + |packet|] == packet
    requires IpDst(packet).Some? && s.send(net.Lookup(IpDst(packet).value), Padded(packet)).Data?
    ensures var d := s.send(net.Lookup(IpDst(packet).value), Padded(packet));
            var frame := d.header + d.sealed + d.tag;
            Intern(s, net, p, buf, DATA_HEADER_SIZE + |packet|)
            == (Done(Outbound(0, |frame|, d.to)), frame + buf[|frame|..])
  {
    var d := s.send(net.Lookup(IpDst(packet).value), Padded(packet));
    EmitFrames(buf, Padded(packet), d);
  }

  lemma EmitFrames(buf: seq<byte>, padded: seq<byte>, d: SendResult)
    requires DATA_HEADER_SIZE + |padded| + TAG_FOOTER_SIZE <= |buf|
    requires d.Data? && |d.header| == DATA_HEADER_SIZE && |d.sealed| == |padded| && |d.tag| == TAG_FOOTER_SIZE
    ensures var frame := d.header + d.sealed + d.tag;
            Emit(Splice(buf, DATA_HEADER_SIZE, padded), DATA_HEADER_SIZE, |padded|, d)
            == (Done(Outbound(0, |frame|, d.to)), frame + buf[|frame|..])
  {
    FrameCovers(buf, padded, d.header, d.sealed, d.tag);
  }

  /** The frame overwrites everything written before it. */
  lemma FrameCovers(buf: seq<byte>, padded: seq<byte>, header: seq<byte>, sealed: seq<byte>, tag: seq<byte>)
    requires |header| == DATA_HEADER_SIZE && |tag| == TAG_FOOTER_SIZE && |sealed| == |padded|
    requires DATA_HEADER_SIZE + |padded| + TAG_FOOTER_SIZE <= |buf|
    ensures var frame := header + sealed + tag;
            Splice(Splice(Splice(buf, DATA_HEADER_SIZE, padded), DATA_HEADER_SIZE, sealed), 0, frame)
            == frame + buf[|frame|..]
  {
    var frame, body := header + sealed + tag, DATA_HEADER_SIZE + |padded|;
    var ready := Splice(buf, DATA_HEADER_SIZE, padded);
    var secret := Splice(ready, DATA_HEADER_SIZE, sealed);
    assert secret[body..] == ready[body..] == buf[body..];
    assert secret[|frame|..] == secret[body..][TAG_FOOTER_SIZE..];
    assert buf[|frame|..] == buf[body..][TAG_FOOTER_SIZE..];
  }

  lemma ExternOpens(s: Sessions, net: PeerNet, p: Platform, from: SocketAddr, datagram: seq<byte>)
    requires net.Valid() && Lawful(s) && Fits(p)
    requires s.recv(from, datagram).Read? && IpSrc(s.recv(from, datagram).plain).Some?
    requires net.Lookup(IpSrc(s.recv(from, datagram).plain).value) == s.recv(from, datagram).peer
    ensures var plain := s.recv(from, datagram).plain;
            var (o, after) := Extern(s, net, p, from, datagram);
            o == Done(Inbound(TunBufStart(p), DATA_HEADER_SIZE + |plain|))
            && DATA_HEADER_SIZE + |plain| <= |after|
            && after[TunBufStart(p)..DATA_HEADER_SIZE + |plain|] == p.headerFor(plain) + plain
  {
    var plain := s.recv(from, datagram).plain;
    var clear := Splice(datagram, DATA_HEADER_SIZE, plain);
    var lo := TunBufStart(p);
    var after := Splice(clear, lo, p.headerFor(plain));
    assert after[DATA_HEADER_SIZE..] == clear[DATA_HEADER_SIZE..];
    assert after[lo..DATA_HEADER_SIZE + |plain|] == after[lo..DATA_HEADER_SIZE] + after[DATA_HEADER_SIZE..][..|plain|];
  }

  /** A packet read from one TUN arrives at the other: the kernel header there, the packet, and fewer than 16 zero
      bytes. */
  lemma FramingRoundTrip(sa: Sessions, netA: PeerNet, a: Platform, buf: seq<byte>, packet: seq<byte>, pb: PeerId,
                         from: SocketAddr, sb: Sessions, netB: PeerNet, b: Platform, pa: PeerId)
    requires netA.Valid() && Lawful(sa) && Fits(a) && netB.Valid() && Lawful(sb) && Fits(b)
    requires DATA_HEADER_SIZE + |Padded(packet)| + TAG_FOOTER_SIZE <= |buf|
    requires buf[DATA_HEADER_SIZE..DATA_HEADER_SIZE + |packet|] == packet
    requires IpDst(packet).Some? && netA.Lookup(IpDst(packet).value) == pb && sa.send(pb, Padded(packet)).Data?
    requires Paired(sa, pb, from, sb, pa) && IpSrc(packet).Some? && netB.Lookup(IpSrc(packet).value) == pa
    ensures var (sent, after) := Intern(sa, netA, a, buf, DATA_HEADER_SIZE + |packet|);
            && sent.Done? && sent.write.Outbound? && sent.write.lo <= sent.write.hi <= |after|
            && var (got, there) := Extern(sb, netB, b, from, after[sent.write.lo..sent.write.hi]);
               && got.Done? && got.write.Inbound? && got.write.lo <= got.write.hi <= |there|
               && exists zeros: nat :: zeros < 16 &&
                    there[got.write.lo..got.write.hi] == b.headerFor(Padded(packet)) + packet + Zeros(zeros)
  {
    var padded := Padded(packet);
    var d := sa.send(pb, padded);
    var frame := d.header + d.sealed + d.tag;
    InternFrames(sa, netA, a, buf, packet);
    assert (frame + buf[|frame|..])[0..|frame|] == frame;
    assert sb.recv(from, frame) == Read(pa, padded);
    PaddingKeepsAddresses(packet, padded);
    ExternOpens(sb, netB, b, from, frame);
    var zeros := |padded| - |packet|;
    assert b.headerFor(padded) + packet + Zeros(zeros) == b.headerFor(padded) + padded;
  }

  // ---------------------------------------------------------------- cryptokey routing

  /** The table answers as `build_sessions` made it for these peers. */
  ghost predicate BuiltFor(net: PeerNet, peers: seq<PeerConfig>) {
    net.Valid() && forall a: Addr :: Some(net.Lookup(a)) == Prefixes.Lookup(TableOf(Inserts(peers), Sentinel), a)
  }

  /** A datagram reaches the TUN if and only if it opens as data of some configured peer that owns the source
      address of the packet inside. */
  lemma InboundIffOwner(s: Sessions, net: PeerNet, peers: seq<PeerConfig>, p: Platform, from: SocketAddr,
                        datagram: seq<byte>)
    requires BuiltFor(net, peers) && Lawful(s) && Fits(p)
    requires s.recv(from, datagram).Read? ==> s.recv(from, datagram).peer.Peer?
    ensures Extern(s, net, p, from, datagram).0.Done?
    ensures Extern(s, net, p, from, datagram).0.write.Inbound?
       <==> exists i: nat, plain :: s.recv(from, datagram) == Read(Peer(i), plain)
              && IpSrc(plain).Some? && Owns(peers, i, IpSrc(plain).value)
  {
    var r := s.recv(from, datagram);
    if r.Read? && IpSrc(r.plain).Some? {
      LookupIsOwner(peers, IpSrc(r.plain).value);
      assert net.Lookup(IpSrc(r.plain).value) == r.peer <==> Owns(peers, r.peer.index, IpSrc(r.plain).value);
    }
  }

  /** An outgoing packet concerns the session of its destination's owner alone: session managers that treat that peer
      alike give the same result. Nobody's destination concerns the sentinel. */
  lemma OutboundAsksOwner(s: Sessions, s1: Sessions, net: PeerNet, peers: seq<PeerConfig>, p: Platform, buf: seq<byte>,
                          filled: nat, owner: PeerId)
    requires BuiltFor(net, peers) && IpPacketStart(p) <= filled <= |buf|
    requires IpDst(buf[IpPacketStart(p)..filled]).Some?
    requires var dst := IpDst(buf[IpPacketStart(p)..filled]).value;
             if owner.Peer? then Owns(peers, owner.index, dst) else Unowned(peers, dst)
    requires forall x :: s.send(owner, x) == s1.send(owner, x)
    ensures Intern(s, net, p, buf, filled) == Intern(s1, net, p, buf, filled)
  {
    LookupIsOwner(peers, IpDst(buf[IpPacketStart(p)..filled]).value);
  }

  /** Both directions agree: once a packet from some address was let through for a peer by the session manager `s`,
      every later packet to that address concerns that peer's session alone. `later` and `alike` are any later
      states of the session manager that treat that peer alike. */
  lemma CryptokeyRouting(s: Sessions, later: Sessions, alike: Sessions, net: PeerNet, peers: seq<PeerConfig>,
                         p: Platform, from: SocketAddr, datagram: seq<byte>, buf: seq<byte>, filled: nat)
    requires BuiltFor(net, peers) && Lawful(s) && Fits(p)
    requires s.recv(from, datagram).Read? && s.recv(from, datagram).peer.Peer?
    requires Extern(s, net, p, from, datagram).0.write.Inbound?
    requires IpPacketStart(p) <= filled <= |buf|
    requires IpDst(buf[IpPacketStart(p)..filled]) == IpSrc(s.recv(from, datagram).plain)
    requires var peer := s.recv(from, datagram).peer; forall x :: later.send(peer, x) == alike.send(peer, x)
    ensures Intern(later, net, p, buf, filled) == Intern(alike, net, p, buf, filled)
  {
    InboundIffOwner(s, net, peers, p, from, datagram);
    OutboundAsksOwner(later, alike, net, peers, p, buf, filled, s.recv(from, datagram).peer);
  }
}
