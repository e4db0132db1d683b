/** A binary radix trie, its path- and level-compressed form, and the proof that compression changes no lookup. */
module RadixTries {
  import opened Wrappers
  import opened Prefixes

  datatype Trie<V> = Leaf | Node(val: Option<V>, zero: Trie<V>, one: Trie<V>)

  function Child<V>(t: Trie<V>, b: bool): Trie<V>
    requires t.Node?
  {
    if b then t.one else t.zero
  }

  function Insert<V>(t: Trie<V>, bits: Bits, v: V): (r: Trie<V>)
    ensures r.Node?
    decreases |bits|
  {
    var n := if t.Leaf? then Node(None, Leaf, Leaf) else t;
    if bits == [] then n.(val := Some(v))
    else if bits[0] then n.(one := Insert(n.one, bits[1..], v))
    else n.(zero := Insert(n.zero, bits[1..], v))
  }

  /** The value stored under exactly this key. */
  function Get<V>(t: Trie<V>, bits: Bits): Option<V>
    decreases |bits|
  {
    if t.Leaf? then None
    else if bits == [] then t.val
    else Get(Child(t, bits[0]), bits[1..])
  }

  function Own<V>(t: Trie<V>, inherited: V): V {
    if t.Node? && t.val.Some? then t.val.value else inherited
  }

  /** The last value on the way down along `a`; `inherited` is the last one met above `t`. */
  function Descend<V>(t: Trie<V>, a: Bits, inherited: V): V
    decreases |a|
  {
    if t.Leaf? || a == [] then Own(t, inherited)
    else Descend(Child(t, a[0]), a[1..], Own(t, inherited))
  }

  /** How many edges the longest way down has. */
  function Depth<V>(t: Trie<V>): nat {
    if t.Leaf? then 0 else
    var z := if t.zero.Leaf? then 0 else 1 + Depth(t.zero);
    var o := if t.one.Leaf? then 0 else 1 + Depth(t.one);
    if z >= o then z else o
  }

  // ---------------------------------------------------------------- the trie is a map, and descending is longest match

  lemma {:induction false} InsertIsUpdate<V>(t: Trie<V>, bits: Bits, v: V, key: Bits)
    ensures Get(Insert(t, bits, v), key) == if key == bits then Some(v) else Get(t, key)
    decreases |bits|
  {
    if bits != [] && key != [] {
      var n := if t.Leaf? then Node(None, Leaf, Leaf) else t;
      if key[0] == bits[0] {
        InsertIsUpdate(Child(n, bits[0]), bits[1..], v, key[1..]);
        assert key == bits <==> key[1..] == bits[1..] by {
          assert key == [key[0]] + key[1..] && bits == [bits[0]] + bits[1..];
        }
      }
    }
  }

  lemma {:induction false} InsertDepth<V>(t: Trie<V>, bits: Bits, v: V, n: nat)
    requires Depth(t) <= n && |bits| <= n
    ensures Depth(Insert(t, bits, v)) <= n
    decreases |bits|
  {
    if bits != [] {
      var s: Trie<V> := if t.Leaf? then Node(None, Leaf, Leaf) else t;
      InsertDepth(Child(s, bits[0]), bits[1..], v, n - 1);
    }
  }

  /** Descending finds the value of the longest stored prefix of `a`, whose length is `n`; -1 stands for none. */
  lemma {:induction false} DescendIsLongest<V>(t: Trie<V>, a: Bits, inherited: V, n: int)
    requires -1 <= n <= |a|
    requires n >= 0 ==> Get(t, a[..n]).Some?
    requires forall l: nat :: n < l <= |a| ==> Get(t, a[..l]).None?
    ensures Descend(t, a, inherited) == if n < 0 then inherited else Get(t, a[..n]).value
    decreases |a|
  {
    if t.Node? {
      assert a[..0] == [];
      if a != [] {
        forall l: nat | 1 <= l <= |a| ensures Get(t, a[..l]) == Get(Child(t, a[0]), a[1..][..l - 1]) {
          assert a[..l][1..] == a[1..][..l - 1];
        }
        if n < 0 {
          assert Get(t, a[..0]).None?;
        }
        forall l: nat | n <= l < |a| ensures Get(Child(t, a[0]), a[1..][..l]).None? {
          assert Get(t, a[..l + 1]).None? && a[..l + 1][1..] == a[1..][..l];
        }
        DescendIsLongest(Child(t, a[0]), a[1..], Own(t, inherited), if n < 1 then -1 else n - 1);
      }
    }
  }

  // ---------------------------------------------------------------- the compressed form

  /** `Skip` compares a run of bits at once; `Branch` jumps `stride` levels by indexing with the next bits. Values are
      pushed down, so a lookup never has to look back up. */
  datatype LCTrie<V> =
    | Final(best: V)
    | Skip(run: Bits, best: V, below: LCTrie<V>)
    | Branch(stride: nat, children: seq<LCTrie<V>>)

  /** Every key of `n` bits can be looked up. */
  predicate WellFormed<V>(c: LCTrie<V>, n: nat)
    decreases c
  {
    match c
    case Final(_) => true
    case Skip(run, _, below) => |run| <= n ==> WellFormed(below, n - |run|)
    case Branch(stride, children) =>
      && stride <= n && |children| == Pow2(stride)
      && forall i :: 0 <= i < |children| ==> WellFormed(children[i], n - stride)
  }

  function Find<V>(c: LCTrie<V>, a: Bits): V
    requires WellFormed(c, |a|)
    decreases c
  {
    match c
    case Final(best) => best
    case Skip(run, best, below) => if run <= a then Find(below, a[|run|..]) else best
    case Branch(stride, children) => Find(children[Index(a[..stride])], a[stride..])
  }

  function Size<V>(t: Trie<V>): nat {
    if t.Leaf? then 0 else 1 + Size(t.zero) + Size(t.one)
  }

  predicate OneChild<V>(t: Trie<V>) {
    t.Node? && (t.zero.Leaf? != t.one.Leaf?)
  }

  /** The run of bits down from a node with one child, up to the first value or branching. */
  function Run<V>(t: Trie<V>): (r: (Bits, Trie<V>))
    requires OneChild(t)
    ensures r.1.Node? && Size(r.1) < Size(t)
  {
    var b := t.zero.Leaf?;
    var c := Child(t, b);
    if OneChild(c) && c.val.None? then
      var r := Run(c);
      ([b] + r.0, r.1)
    else
      ([b], c)
  }

  /** The number of levels below the root that are complete. */
  function Stride<V>(t: Trie<V>): (r: nat)
    ensures r <= Depth(t)
  {
    if t.Leaf? || t.zero.Leaf? || t.one.Leaf? then 0
    else
      var z, o := Stride(t.zero), Stride(t.one);
      1 + if z <= o then z else o
  }

  /** The subtries `k` levels down, from left to right, each with the value it inherits. */
  function Level<V>(t: Trie<V>, k: nat, inherited: V): (r: seq<(Trie<V>, V)>)
    ensures |r| == Pow2(k)
    ensures forall i :: 0 <= i < |r| ==> Size(r[i].0) <= Size(t)
    ensures k > 0 && t.Node? ==> forall i :: 0 <= i < |r| ==> Size(r[i].0) < Size(t)
    decreases k
  {
    if k == 0 then [(t, inherited)]
    else
      var z, o := if t.Leaf? then t else t.zero, if t.Leaf? then t else t.one;
      Level(z, k - 1, Own(t, inherited)) + Level(o, k - 1, Own(t, inherited))
  }

  function Compress<V>(t: Trie<V>, inherited: V): LCTrie<V>
    decreases Size(t)
  {
    if t.Leaf? || (t.zero.Leaf? && t.one.Leaf?) then Final(Own(t, inherited))
    else if OneChild(t) then
      var (run, below) := Run(t);
      Skip(run, Own(t, inherited), Compress(below, Own(t, inherited)))
    else
      var level := Level(t, Stride(t), inherited);
      Branch(Stride(t), seq(|level|, i requires 0 <= i < |level| => Compress(level[i].0, level[i].1)))
  }

  // ---------------------------------------------------------------- compression preserves every lookup

  lemma {:induction false} RunDepth<V>(t: Trie<V>)
    requires OneChild(t)
    ensures Depth(Run(t).1) + |Run(t).0| <= Depth(t)
  {
    var c := Child(t, t.zero.Leaf?);
    if OneChild(c) && c.val.None? {
      RunDepth(c);
    }
  }

  lemma {:induction false} RunDescends<V>(t: Trie<V>, a: Bits, inherited: V)
    requires OneChild(t)
    ensures var (run, below) := Run(t);
            Descend(t, a, inherited)
            == if run <= a then Descend(below, a[|run|..], Own(t, inherited)) else Own(t, inherited)
    decreases t
  {
    var b := t.zero.Leaf?;
    var c := Child(t, b);
    if a != [] && a[0] == b {
      assert a == [b] + a[1..];
      if OneChild(c) && c.val.None? {
        RunDescends(c, a[1..], Own(t, inherited));
        var run := Run(c).0;
        assert [b] + run <= a <==> run <= a[1..];
        if run <= a[1..] {
          assert a[|run| + 1..] == a[1..][|run|..];
        }
      }
    }
  }

  lemma {:induction false} LevelDepth<V>(t: Trie<V>, k: nat, inherited: V, n: nat, i: nat)
    requires Depth(t) <= n && k <= n && i < Pow2(k)
    ensures Depth(Level(t, k, inherited)[i].0) <= n - k
    decreases k
  {
    if k > 0 {
      var z, o := if t.Leaf? then t else t.zero, if t.Leaf? then t else t.one;
      if i < Pow2(k - 1) {
        LevelDepth(z, k - 1, Own(t, inherited), n - 1, i);
      } else {
        LevelDepth(o, k - 1, Own(t, inherited), n - 1, i - Pow2(k - 1));
      }
    }
  }

  lemma {:induction false} LevelDescends<V>(t: Trie<V>, k: nat, inherited: V, a: Bits)
    requires k <= |a|
    ensures var s := Level(t, k, inherited)[Index(a[..k])];
            Descend(t, a, inherited) == Descend(s.0, a[k..], s.1)
    decreases k
  {
    if k == 0 {
      assert a[0..] == a;
    } else {
      var z, o := if t.Leaf? then t else t.zero, if t.Leaf? then t else t.one;
      var mine := Own(t, inherited);
      assert a[..k][1..] == a[1..][..k - 1] && a[1..][k - 1..] == a[k..];
      LevelDescends(if a[0] then o else z, k - 1, mine, a[1..]);
    }
  }

  lemma {:induction false} CompressWellFormed<V>(t: Trie<V>, inherited: V, n: nat)
    requires Depth(t) <= n
    ensures WellFormed(Compress(t, inherited), n)
    decreases Size(t)
  {
    if t.Leaf? || (t.zero.Leaf? && t.one.Leaf?) {
    } else if OneChild(t) {
      RunDepth(t);
      CompressWellFormed(Run(t).1, Own(t, inherited), n - |Run(t).0|);
    } else {
      var level := Level(t, Stride(t), inherited);
      forall i | 0 <= i < |level| ensures WellFormed(Compress(level[i].0, level[i].1), n - Stride(t)) {
        LevelDepth(t, Stride(t), inherited, n, i);
        CompressWellFormed(level[i].0, level[i].1, n - Stride(t));
      }
    }
  }

  /** Compression never changes a lookup. */
  lemma {:induction false} CompressPreserves<V>(t: Trie<V>, inherited: V, a: Bits)
    requires Depth(t) <= |a|
    ensures WellFormed(Compress(t, inherited), |a|)
    ensures Find(Compress(t, inherited), a) == Descend(t, a, inherited)
    decreases Size(t)
  {
    CompressWellFormed(t, inherited, |a|);
    if t.Leaf? || (t.zero.Leaf? && t.one.Leaf?) {
    } else if OneChild(t) {
      var (run, below) := Run(t);
      RunDepth(t);
      RunDescends(t, a, inherited);
      if run <= a {
        CompressPreserves(below, Own(t, inherited), a[|run|..]);
      }
    } else {
      var k := Stride(t);
      LevelDescends(t, k, inherited, a);
      LevelDepth(t, k, inherited, |a|, Index(a[..k]));
      var s := Level(t, k, inherited)[Index(a[..k])];
      CompressPreserves(s.0, s.1, a[k..]);
    }
  }
}
