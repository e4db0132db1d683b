/** Which addresses the exempt prefixes and the probe stand for, byte by byte. */
module ExemptRanges {
  import opened Prefixes
  import opened Routes
  import opened RouteForwarding

  /** The IPv4 address with these four bytes. */
  function Ipv4(bs: seq<byte>): Addr
    requires |bs| == 4
  {
    Prefix(V4, BytesToBits(bs))
  }

  /** The number that the first two bytes spell. */
  function FirstTwo(bs: seq<byte>): nat
    requires |bs| == 4
  {
    var high: int, low: int := bs[0], bs[1];
    256 * high + low
  }

  lemma TwoBytes(bs: seq<byte>, width: nat)
    requires |bs| == 4 && width == 8
    ensures Ipv4(bs).bits[..2 * width] == ToBits(FirstTwo(bs), 2 * width)
  {
    var bits := BytesToBits(bs);
    BytesInOrder(bs, 0);
    BytesInOrder(bs, 1);
    assert bits[..2 * width] == bits[8 * 0..8 * 0 + 8] + bits[8 * 1..8 * 1 + 8];
    Powers();
    JoinBits(bs[0], bs[1], width);
  }

  /** The leading bits of an address, compared as a number. */
  lemma LeadIs(bs: seq<byte>, width: nat, n: nat, number: nat)
    requires |bs| == 4 && width == 8 && n <= 2 * width
    requires number < Pow2(n) && Halved(FirstTwo(bs), 2 * width - n) < Pow2(n)
    ensures Lead(Ipv4(bs), n) == Prefix(V4, ToBits(number, n)) <==> Halved(FirstTwo(bs), 2 * width - n) == number
  {
    TwoBytes(bs, width);
    FrontBits(FirstTwo(bs), 2 * width, 2 * width - n);
    var bits := Ipv4(bs).bits;
    assert bits[..n] == bits[..2 * width][..n];
    IndexOfBits(number, n);
    IndexOfBits(Halved(FirstTwo(bs), 2 * width - n), n);
  }

  lemma HalvedTwice(n: nat, times: nat)
    requires times >= 2
    ensures Halved(n, times) == Halved(n / 4, times - 2)
  {
    assert n / 2 / 2 == n / 4 && Halved(n / 2, times - 1) == Halved(n / 2 / 2, times - 2);
  }

  lemma Halvings(n: nat)
    ensures Halved(n, 8) == n / 256 && Halved(n, 6) == n / 64 && Halved(n, 4) == n / 16 && Halved(n, 0) == n
  {
    HalvedTwice(n, 8);
    HalvedTwice(n, 6);
    HalvedTwice(n, 4);
    HalvedTwice(n / 4, 6);
    HalvedTwice(n / 4, 4);
    HalvedTwice(n / 4, 2);
    HalvedTwice(n / 16, 4);
    HalvedTwice(n / 16, 2);
    HalvedTwice(n / 64, 2);
    assert n / 4 / 4 == n / 16 && n / 16 / 4 == n / 64 && n / 64 / 4 == n / 256;
  }

  lemma Powers()
    ensures Pow2(8) == 256 && Pow2(10) == 1024 && Pow2(12) == 4096 && Pow2(16) == 65536 && Pow2(24) == 0x100_0000
  {
    assert Pow2(4) == 16 && Pow2(8) == 256 && Pow2(12) == 4096 && Pow2(16) == 65536 && Pow2(20) == 0x10_0000;
  }

  lemma TenEight(bs: seq<byte>)
    requires |bs| == 4
    ensures Lead(Ipv4(bs), 8) == Prefix(V4, ToBits(10, 8)) <==> bs[0] == 10
  {
    Halvings(FirstTwo(bs));
    Powers();
    LeadIs(bs, 8, 8, 10);
  }

  lemma HundredTen(bs: seq<byte>)
    requires |bs| == 4
    ensures Lead(Ipv4(bs), 10) == Prefix(V4, ToBits(401, 10)) <==> bs[0] == 100 && 64 <= bs[1] < 128
  {
    Halvings(FirstTwo(bs));
    Powers();
    LeadIs(bs, 8, 10, 401);
  }

  lemma PrivateTwelve(bs: seq<byte>)
    requires |bs| == 4
    ensures Lead(Ipv4(bs), 12) == Prefix(V4, ToBits(2753, 12)) <==> bs[0] == 172 && 16 <= bs[1] < 32
  {
    Halvings(FirstTwo(bs));
    Powers();
    LeadIs(bs, 8, 12, 2753);
  }

  lemma PrivateSixteen(bs: seq<byte>)
    requires |bs| == 4
    ensures Lead(Ipv4(bs), 16) == Prefix(V4, ToBits(49320, 16)) <==> bs[0] == 192 && bs[1] == 168
  {
    Halvings(FirstTwo(bs));
    Powers();
    LeadIs(bs, 8, 16, 49320);
  }

  /** Exempt are 10.0.0.0/8, 100.64.0.0/10, 172.16.0.0/12 and 192.168.0.0/16, and no IPv6 address. */
  lemma ExemptAddresses(bs: seq<byte>)
    requires |bs| == 4
    ensures LongestIn(BlackholeExemptions(V4), Ipv4(bs))
         == if bs[0] == 10 then 8
            else if bs[0] == 100 && 64 <= bs[1] < 128 then 10
            else if bs[0] == 172 && 16 <= bs[1] < 32 then 12
            else if bs[0] == 192 && bs[1] == 168 then 16
            else -1
    ensures BlackholeExemptions(V6) == []
  {
    TenEight(bs);
    HundredTen(bs);
    PrivateTwelve(bs);
    PrivateSixteen(bs);
    LongestOfFour(Ipv4(bs), ToBits(10, 8), ToBits(401, 10), ToBits(2753, 12), ToBits(49320, 16));
  }

  lemma LongestOfFour(a: Addr, x8: Bits, x10: Bits, x12: Bits, x16: Bits)
    requires |x8| == 8 && |x10| == 10 && |x12| == 12 && |x16| == 16 && a.family == V4
    ensures LongestIn([Prefix(V4, x8), Prefix(V4, x10), Prefix(V4, x12), Prefix(V4, x16)], a)
         == if Lead(a, 16) == Prefix(V4, x16) then 16
            else if Lead(a, 12) == Prefix(V4, x12) then 12
            else if Lead(a, 10) == Prefix(V4, x10) then 10
            else if Lead(a, 8) == Prefix(V4, x8) then 8
            else -1
  {
    var keys := [Prefix(V4, x8), Prefix(V4, x10), Prefix(V4, x12), Prefix(V4, x16)];
    assert forall l: nat :: l <= 32 && Lead(a, l) in keys ==> |Lead(a, l).bits| == l;
  }

  /** The probe is 1.1.1.1. */
  lemma ProbeAddress()
    ensures Probe(V4) == Ipv4([1, 1, 1, 1])
  {
    Powers();
    JoinBits(1, 1, 8);
    JoinBits(1, 0x0101, 16);
    JoinBits(1, 0x01_0101, 24);
  }
}
