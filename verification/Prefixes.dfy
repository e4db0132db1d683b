/** Addresses and prefixes as bit sequences, and longest-prefix match over a finite table.

    The same notion of match serves the kernel's routing table and the cryptokey-routing table. */
module Prefixes {
  import opened Wrappers

  datatype Family = V4 | V6

  type Bits = seq<bool>

  function Width(f: Family): nat {
    if f.V4? then 32 else 128
  }

  /** `bits` are the leading bits of every address the prefix covers; `[]` is the catch-all `/0`. */
  datatype Prefix = Prefix(family: Family, bits: Bits)

  /** The first `width` bits of the number `n`, most significant bit first. */
  function ToBits(n: nat, width: nat): (r: Bits)
    ensures |r| == width
  {
    if width == 0 then [] else ToBits(n / 2, width - 1) + [n % 2 == 1]
  }

  function Pow2(n: nat): (r: nat)
    ensures r > 0
  {
    if n == 0 then 1 else 2 * Pow2(n - 1)
  }

  /** The number that the bits spell, most significant first. */
  function Index(bits: Bits): (r: nat)
    ensures r < Pow2(|bits|)
  {
    if bits == [] then 0 else (if bits[0] then Pow2(|bits| - 1) else 0) + Index(bits[1..])
  }

  lemma {:induction false} IndexSnoc(bits: Bits, b: bool)
    ensures Index(bits + [b]) == 2 * Index(bits) + if b then 1 else 0
    decreases |bits|
  {
    if bits == [] {
      assert [b][1..] == [] && Pow2(0) == 1;
    } else {
      assert (bits + [b])[1..] == bits[1..] + [b];
      IndexSnoc(bits[1..], b);
    }
  }

  /** `ToBits` writes numbers that fit the width in binary. */
  lemma {:induction false} IndexOfBits(n: nat, width: nat)
    requires n < Pow2(width)
    ensures Index(ToBits(n, width)) == n
  {
    if width > 0 {
      IndexOfBits(n / 2, width - 1);
      IndexSnoc(ToBits(n / 2, width - 1), n % 2 == 1);
    }
  }

  // ---------------------------------------------------------------- bytes

  type byte = b: int | 0 <= b < 256

  /** The bits of the bytes, first byte first. */
  function BytesToBits(bs: seq<byte>): (r: Bits)
    ensures |r| == 8 * |bs|
  {
    if bs == [] then [] else ToBits(bs[0], 8) + BytesToBits(bs[1..])
  }

  /** The bits of a byte spell it, most significant bit first. */
  lemma ByteValue(b: byte)
    ensures Index(ToBits(b, 8)) == b && (ToBits(b, 8)[0] <==> b >= 128)
  {
    assert Pow2(8) == 256 && Pow2(7) == 128;
    IndexOfBits(b, 8);
  }

  /** Every byte is where its position says. */
  lemma {:induction false} BytesInOrder(bs: seq<byte>, i: nat)
    requires i < |bs|
    ensures BytesToBits(bs)[8 * i..8 * i + 8] == ToBits(bs[i], 8)
    decreases i
  {
    var first, rest := ToBits(bs[0], 8), BytesToBits(bs[1..]);
    if i > 0 {
      BytesInOrder(bs[1..], i - 1);
      assert (first + rest)[8 * i..8 * i + 8] == rest[8 * (i - 1)..8 * (i - 1) + 8];
    }
  }

  /** The first bits of a number written in binary are those of the number with its last bits dropped. */
  function Halved(n: nat, times: nat): nat {
    if times == 0 then n else Halved(n / 2, times - 1)
  }

  lemma {:induction false} FrontBits(n: nat, width: nat, drop: nat)
    requires drop <= width
    ensures ToBits(n, width)[..width - drop] == ToBits(Halved(n, drop), width - drop)
    decreases drop
  {
    if drop > 0 {
      var half := ToBits(n / 2, width - 1);
      FrontBits(n / 2, width - 1, drop - 1);
      assert ToBits(n, width)[..width - drop] == half[..width - drop];
    }
  }

  lemma TwiceTimes(a: nat, b: nat)
    ensures a * (2 * b) == 2 * (a * b)
  {
  }

  /** A byte and the bits behind it spell one number. */
  lemma {:induction false} JoinBits(high: nat, low: nat, width: nat)
    requires low < Pow2(width)
    ensures ToBits(high * Pow2(width) + low, 8 + width) == ToBits(high, 8) + ToBits(low, width)
  {
    if width > 0 {
      var part := high * Pow2(width - 1);
      TwiceTimes(high, Pow2(width - 1));
      JoinBits(high, low / 2, width - 1);
      assert (2 * part + low) / 2 == part + low / 2 && (2 * part + low) % 2 == low % 2;
      assert ToBits(high, 8) + ToBits(low / 2, width - 1) + [low % 2 == 1]
          == ToBits(high, 8) + (ToBits(low / 2, width - 1) + [low % 2 == 1]);
    }
  }

  lemma SamePrefix<T>(x: seq<T>, y: seq<T>, xs: seq<T>, ys: seq<T>)
    requires |x| == |y|
    ensures x + xs <= y + ys <==> x == y && xs <= ys
  {
    if x + xs <= y + ys {
      assert x == (x + xs)[..|x|] == (y + ys)[..|x|] == y;
      assert xs == (x + xs)[|x|..] == (y + ys)[|x|..|x + xs|] == ys[..|xs|];
    }
  }

  /** A prefix of whole bytes covers exactly what begins with these bytes. */
  lemma {:induction false} BytePrefix(net: seq<byte>, bs: seq<byte>)
    requires |net| <= |bs|
    ensures BytesToBits(net) <= BytesToBits(bs) <==> net <= bs
    decreases |net|
  {
    if net != [] {
      BytePrefix(net[1..], bs[1..]);
      SamePrefix(ToBits(net[0], 8), ToBits(bs[0], 8), BytesToBits(net[1..]), BytesToBits(bs[1..]));
      SamePrefix([net[0]], [bs[0]], net[1..], bs[1..]);
      assert net == [net[0]] + net[1..] && bs == [bs[0]] + bs[1..];
      ByteValue(net[0]);
      ByteValue(bs[0]);
    }
  }

  // ---------------------------------------------------------------- addresses and prefixes

  type IpNet = p: Prefix | |p.bits| <= Width(p.family) witness Prefix(V4, [])

  /** An address is a prefix of full width. */
  type Addr = p: Prefix | |p.bits| == Width(p.family) witness Prefix(V4, ToBits(0, 32))

  datatype SocketAddr = SocketAddr(ip: Addr, port: nat)

  /** The first `n` bits of `a`, as a key of a table. */
  function Lead(a: Prefix, n: nat): Prefix
    requires n <= |a.bits|
  {
    Prefix(a.family, a.bits[..n])
  }

  predicate Covers(p: Prefix, a: Prefix) {
    p.family == a.family && p.bits <= a.bits
  }

  /** The length of the longest prefix of `a` of length at most `n` that is a key of `m`; -1 if there is none. */
  function LongestUpTo<V>(m: map<Prefix, V>, a: Prefix, n: nat): (r: int)
    requires n <= |a.bits|
    ensures -1 <= r <= n
    ensures r >= 0 ==> Lead(a, r) in m
    ensures forall l: nat :: r < l <= n ==> Lead(a, l) !in m
  {
    if Lead(a, n) in m then n
    else if n == 0 then -1
    else LongestUpTo(m, a, n - 1)
  }

  function MatchLen<V>(m: map<Prefix, V>, a: Prefix): (r: int)
    ensures -1 <= r <= |a.bits|
    ensures r >= 0 ==> Lead(a, r) in m
    ensures forall l: nat :: r < l <= |a.bits| ==> Lead(a, l) !in m
  {
    LongestUpTo(m, a, |a.bits|)
  }

  /** Longest-prefix match. */
  function Lookup<V>(m: map<Prefix, V>, a: Prefix): Option<V> {
    var n := MatchLen(m, a);
    if n < 0 then None else Some(m[Lead(a, n)])
  }

  /** Lookup gives the value of the longest key that covers the address, and nothing if no key does. */
  lemma LookupIsLongest<V>(m: map<Prefix, V>, a: Prefix, key: Prefix)
    requires key in m && Covers(key, a) && forall p :: p in m && Covers(p, a) ==> |p.bits| <= |key.bits|
    ensures Lookup(m, a) == Some(m[key])
  {
    CoversIsLead(key, a);
    forall l: nat | |key.bits| < l <= |a.bits| ensures Lead(a, l) !in m {
      assert Covers(Lead(a, l), a);
    }
    MatchLenIs(m, a, |key.bits|);
  }

  lemma NothingCovers<V>(m: map<Prefix, V>, a: Prefix)
    requires forall p :: p in m ==> !Covers(p, a)
    ensures Lookup(m, a) == None
  {
    assert MatchLen(m, a) >= 0 ==> Covers(Lead(a, MatchLen(m, a)), a);
  }

  lemma MatchLenIs<V>(m: map<Prefix, V>, a: Prefix, n: int)
    requires -1 <= n <= |a.bits|
    requires n >= 0 ==> Lead(a, n) in m
    requires forall l: nat :: n < l <= |a.bits| ==> Lead(a, l) !in m
    ensures MatchLen(m, a) == n
  {
  }

  /** A key that covers an address is one of the address's leading parts. */
  lemma CoversIsLead(p: Prefix, a: Prefix)
    requires Covers(p, a)
    ensures p == Lead(a, |p.bits|)
  {
  }

  /** A table that holds the address itself always answers with that entry. */
  lemma HostEntryWins<V>(m: map<Prefix, V>, a: Prefix)
    requires a in m
    ensures MatchLen(m, a) == |a.bits|
    ensures Lookup(m, a) == Some(m[a])
  {
    assert Lead(a, |a.bits|) == a;
  }

  /** Entries added to a table only where it has none: the longer match wins, and the old table wins ties. */
  lemma OverlayLookup<V>(base: map<Prefix, V>, extra: map<Prefix, V>, a: Prefix)
    ensures MatchLen(extra + base, a)
         == if MatchLen(base, a) >= MatchLen(extra, a) then MatchLen(base, a) else MatchLen(extra, a)
    ensures Lookup(extra + base, a)
         == if MatchLen(base, a) >= MatchLen(extra, a) then Lookup(base, a) else Lookup(extra, a)
  {
    var m := extra + base;
    var n0, n1 := MatchLen(base, a), MatchLen(extra, a);
    var n := if n0 >= n1 then n0 else n1;
    forall l: nat | n < l <= |a.bits| ensures Lead(a, l) !in m {
      assert Lead(a, l) !in base && Lead(a, l) !in extra;
    }
    MatchLenIs(m, a, n);
    if n0 < n1 {
      assert Lead(a, n1) !in base;
    }
  }
}
