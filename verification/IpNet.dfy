/** The CIDR address generator: byte-wise increment, cursor and count, and what a run of it enumerates. */
module IpNet {
  newtype byte = x: int | 0 <= x < 256

  function Pow2(e: nat): (p: nat)
    ensures p > 0
  {
    if e == 0 then 1 else 2 * Pow2(e - 1)
  }

  function Pow256(e: nat): (p: nat)
    ensures p > 0
  {
    if e == 0 then 1 else 256 * Pow256(e - 1)
  }

  /** The big-endian number an address stands for. */
  function Value(s: seq<byte>): (v: nat)
    ensures v < Pow256(|s|)
  {
    if s == [] then 0 else 256 * Value(s[..|s| - 1]) + s[|s| - 1] as int
  }

  // ---------- Increment ----------

  /** `b++` on a Go byte. */
  function Bump(b: byte): byte {
    if b == 255 then 0 else b + 1
  }

  /** The next address of the same length; the last one is followed by the first. */
  function Succ(s: seq<byte>): (r: seq<byte>)
    ensures |r| == |s|
  {
    if s == [] then []
    else if s[|s| - 1] == 255 then Succ(s[..|s| - 1]) + [0]
    else s[..|s| - 1] + [s[|s| - 1] + 1]
  }

  function SuccN(s: seq<byte>, k: nat): (r: seq<byte>)
    ensures |r| == |s|
  {
    if k == 0 then s else Succ(SuccN(s, k - 1))
  }

  method Increment(ip: array<byte>)
    modifies ip
    ensures ip[..] == Succ(old(ip[..]))
  {
    ghost var was := ip[..];
    assert was[..ip.Length] == was;
    for i := ip.Length downto 0
      invariant ip[..i] == was[..i]
      invariant Succ(was) == Succ(was[..i]) + ip[i..]
    {
      ip[i] := Bump(ip[i]);
      assert was[..i + 1][..i] == was[..i];
      if ip[i] != 0 {
        assert Succ(was[..i + 1]) == was[..i] + [ip[i]];
        assert ip[..] == ip[..i] + [ip[i]] + ip[i + 1..];
        return;
      }
      assert Succ(was[..i + 1]) == Succ(was[..i]) + [ip[i]];
      assert ip[i..] == [ip[i]] + ip[i + 1..];
    }
  }

  /** Carrying byte by byte is adding one modulo 256^length, for addresses of every length. */
  lemma {:induction false} SuccAddsOne(s: seq<byte>)
    ensures Value(Succ(s)) == (Value(s) + 1) % Pow256(|s|)
  {
    if s != [] {
      var front, last := s[..|s| - 1], s[|s| - 1];
      var p := Pow256(|front|);
      assert Succ(s)[..|s| - 1] == if last == 255 then Succ(front) else front;
      if last == 255 {
        SuccAddsOne(front);
        var v := Value(front) + 1;
        assert Value(s) + 1 == 256 * v;
        if v == p {
          RemainderOf(256 * v, 256 * p, 1, 0);
          RemainderOf(v, p, 1, 0);
        } else {
          RemainderOf(v, p, 0, v);
          RemainderOf(256 * v, 256 * p, 0, 256 * v);
        }
      } else {
        RemainderOf(Value(s) + 1, 256 * p, 0, Value(s) + 1);
      }
    }
  }

  lemma RemainderOf(a: nat, p: nat, q: nat, r: nat)
    requires a == p * q + r && r < p
    ensures a % p == r && a / p == q
  {
    var d := a / p - q;
    assert p * (a / p) + a % p == a;
    Distribute(p, a / p, q);
    assert p * d == r - a % p;
    if d >= 1 { Monotone(p, 1, d); } else if d <= -1 { Monotone(p, d, -1); }
  }

  lemma Distribute(p: int, x: int, y: int)
    ensures p * (x - y) == p * x - p * y && p * (x + y) == p * x + p * y
  {
  }

  lemma Monotone(p: nat, x: int, y: int)
    requires x <= y
    ensures p * x <= p * y
  {
  }

  /** Two addresses of one length with the same number are the same address. */
  lemma {:induction false} ValueInjective(a: seq<byte>, b: seq<byte>)
    requires |a| == |b| && Value(a) == Value(b)
    ensures a == b
  {
    if a != [] {
      ValueInjective(a[..|a| - 1], b[..|b| - 1]);
      assert a == a[..|a| - 1] + [a[|a| - 1]] && b == b[..|b| - 1] + [b[|b| - 1]];
    }
  }

  // ---------- prefixes (section 3.1 of RFC 4632) ----------

  type bit = x: int | 0 <= x < 2

  function BitsValue(bits: seq<bit>): (v: nat)
    ensures v < Pow2(|bits|)
  {
    if bits == [] then 0 else 2 * BitsValue(bits[..|bits| - 1]) + bits[|bits| - 1]
  }

  /** The lowest `n` bits of a number, most significant first. */
  function LowBits(v: nat, n: nat): (r: seq<bit>)
    ensures |r| == n
  {
    if n == 0 then [] else LowBits(v / 2, n - 1) + [v % 2]
  }

  function ByteBits(b: byte): (r: seq<bit>)
    ensures |r| == 8
  {
    LowBits(b as int, 8)
  }

  function BitsOf(s: seq<byte>): (r: seq<bit>)
    ensures |r| == 8 * |s|
  {
    if s == [] then [] else BitsOf(s[..|s| - 1]) + ByteBits(s[|s| - 1])
  }

  /** Both addresses start with the same `ones` bits. */
  predicate SharePrefix(a: seq<byte>, b: seq<byte>, ones: nat)
    requires |a| == |b| && ones <= 8 * |a|
  {
    BitsOf(a)[..ones] == BitsOf(b)[..ones]
  }

  /** Every bit after the first `ones` is zero, as in the address net.ParseCIDR returns. */
  predicate Aligned(base: seq<byte>, ones: nat)
    requires ones <= 8 * |base|
  {
    forall k :: ones <= k < 8 * |base| ==> BitsOf(base)[k] == 0
  }

  lemma Reassociate(x: int, y: int, z: int)
    ensures x * (y * z) == (x * y) * z && x * y == y * x
  {
  }

  lemma {:induction false} PowAdd(m: nat, n: nat)
    ensures Pow2(m + n) == Pow2(m) * Pow2(n)
  {
    if n > 0 {
      PowAdd(m, n - 1);
      Reassociate(2, Pow2(m), Pow2(n - 1));
      Reassociate(Pow2(m), 2, Pow2(n - 1));
    }
  }

  lemma BitsValueSnoc(x: seq<bit>, b: bit)
    ensures BitsValue(x + [b]) == 2 * BitsValue(x) + b
  {
    assert (x + [b])[..|x|] == x;
  }

  lemma Horner(v: nat, p: nat, w: nat, b: nat)
    ensures 2 * (v * p + w) + b == v * (2 * p) + (2 * w + b)
  {
  }

  lemma {:induction false} BitsValueSplit(x: seq<bit>, y: seq<bit>)
    ensures BitsValue(x + y) == BitsValue(x) * Pow2(|y|) + BitsValue(y)
  {
    if y == [] {
      assert x + y == x;
    } else {
      var front, last := y[..|y| - 1], y[|y| - 1];
      BitsValueSplit(x, front);
      assert x + y == (x + front) + [last];
      BitsValueSnoc(x + front, last);
      Horner(BitsValue(x), Pow2(|front|), BitsValue(front), last);
    }
  }

  lemma {:induction false} LowBitsValue(v: nat, n: nat)
    requires v < Pow2(n)
    ensures BitsValue(LowBits(v, n)) == v
  {
    if n > 0 {
      LowBitsValue(v / 2, n - 1);
      assert LowBits(v, n)[..n - 1] == LowBits(v / 2, n - 1);
    }
  }

  lemma EightBits()
    ensures Pow2(8) == 256
  {
    assert Pow2(4) == 16;
  }

  lemma ByteBitsValue(x: seq<bit>, b: byte)
    ensures BitsValue(x + ByteBits(b)) == 256 * BitsValue(x) + b as int
  {
    hide BitsValue, Pow2, LowBits;
    BitsValueSplit(x, ByteBits(b));
    EightBits();
    LowBitsValue(b as int, 8);
  }

  lemma {:induction false} BitsOfValue(s: seq<byte>)
    ensures BitsValue(BitsOf(s)) == Value(s)
  {
    if s != [] {
      var front, last := s[..|s| - 1], s[|s| - 1];
      BitsOfValue(front);
      ByteBitsValue(BitsOf(front), last);
    }
  }

  lemma {:induction false} BitsValueInjective(x: seq<bit>, y: seq<bit>)
    requires |x| == |y| && BitsValue(x) == BitsValue(y)
    ensures x == y
  {
    if x != [] {
      BitsValueInjective(x[..|x| - 1], y[..|y| - 1]);
      assert x == x[..|x| - 1] + [x[|x| - 1]] && y == y[..|y| - 1] + [y[|y| - 1]];
    }
  }

  lemma {:induction false} ZeroBits(x: seq<bit>)
    requires forall k :: 0 <= k < |x| ==> x[k] == 0
    ensures BitsValue(x) == 0
  {
    if x != [] { ZeroBits(x[..|x| - 1]); }
  }

  /** The first `ones` bits are the number divided by the size of the host part, the rest its remainder. */
  lemma PrefixIsQuotient(a: seq<byte>, ones: nat)
    requires ones <= 8 * |a|
    ensures var hosts := Pow2(8 * |a| - ones);
            Value(a) == hosts * BitsValue(BitsOf(a)[..ones]) + BitsValue(BitsOf(a)[ones..])
            && BitsValue(BitsOf(a)[ones..]) < hosts
            && Value(a) / hosts == BitsValue(BitsOf(a)[..ones])
  {
    hide BitsOf, BitsValue, Value, Pow2;
    var bits := BitsOf(a);
    var hosts := Pow2(8 * |a| - ones);
    BitsOfValue(a);
    var net, host := bits[..ones], bits[ones..];
    BitsValueSplit(net, host);
    assert bits == net + host;
    Reassociate(BitsValue(net), hosts, 1);
    RemainderOf(Value(a), hosts, BitsValue(net), BitsValue(host));
  }

  lemma SharePrefixIsQuotient(a: seq<byte>, b: seq<byte>, ones: nat)
    requires |a| == |b| && ones <= 8 * |a|
    ensures var hosts := Pow2(8 * |a| - ones);
            SharePrefix(a, b, ones) <==> Value(a) / hosts == Value(b) / hosts
  {
    PrefixIsQuotient(a, ones);
    PrefixIsQuotient(b, ones);
    if BitsValue(BitsOf(a)[..ones]) == BitsValue(BitsOf(b)[..ones]) {
      BitsValueInjective(BitsOf(a)[..ones], BitsOf(b)[..ones]);
    }
  }

  lemma AlignedIsMultiple(base: seq<byte>, ones: nat)
    requires ones <= 8 * |base| && Aligned(base, ones)
    ensures var hosts := Pow2(8 * |base| - ones);
            Value(base) == hosts * (Value(base) / hosts) && Value(base) + hosts <= Pow256(|base|)
  {
    var hosts := Pow2(8 * |base| - ones);
    PrefixIsQuotient(base, ones);
    ZeroBits(BitsOf(base)[ones..]);
    var q := Value(base) / hosts;
    Distribute(hosts, q, 1);
    Monotone(hosts, q + 1, Pow2(ones));
    PowAdd(8 * |base| - ones, ones);
    BytesAreEightBits(|base|);
  }

  lemma {:induction false} BytesAreEightBits(n: nat)
    ensures Pow2(8 * n) == Pow256(n)
  {
    if n > 0 {
      BytesAreEightBits(n - 1);
      EightBits();
      PowAdd(8, 8 * (n - 1));
    }
  }

  // ---------- what the cursor runs through ----------

  /** As long as the number still fits, the k-th successor is the number plus k. */
  lemma {:induction false} SuccNAdds(s: seq<byte>, k: nat)
    requires Value(s) + k < Pow256(|s|)
    ensures Value(SuccN(s, k)) == Value(s) + k
  {
    hide Succ, Value, Pow256;
    if k > 0 {
      SuccNAdds(s, k - 1);
      SuccAddsOne(SuccN(s, k - 1));
      RemainderOf(Value(s) + k, Pow256(|s|), 0, Value(s) + k);
    }
  }

  /** The first 2^(bits-ones) addresses from an aligned base are pairwise different. */
  lemma AddressesDistinct(base: seq<byte>, ones: nat, j: nat, k: nat)
    requires ones <= 8 * |base| && Aligned(base, ones)
    requires j < k < Pow2(8 * |base| - ones)
    ensures SuccN(base, j) != SuccN(base, k)
  {
    AlignedIsMultiple(base, ones);
    SuccNAdds(base, j);
    SuccNAdds(base, k);
  }

  /** An address with the base's prefix is one of them ... */
  lemma PrefixIsReached(base: seq<byte>, ones: nat, a: seq<byte>) returns (k: nat)
    requires ones <= 8 * |base| && Aligned(base, ones) && |a| == |base|
    requires SharePrefix(a, base, ones)
    ensures k < Pow2(8 * |base| - ones) && SuccN(base, k) == a
  {
    hide SuccN, Value, Pow2, Pow256, SharePrefix, Aligned, BitsValue, BitsOf;
    AlignedIsMultiple(base, ones);
    SharePrefixIsQuotient(a, base, ones);
    PrefixIsQuotient(a, ones);
    k := Value(a) % Pow2(8 * |base| - ones);
    assert Value(a) == Value(base) + k;
    SuccNAdds(base, k);
    ValueInjective(SuccN(base, k), a);
  }

  /** ... and all of them have the base's prefix. */
  lemma ReachedHasPrefix(base: seq<byte>, ones: nat, k: nat)
    requires ones <= 8 * |base| && Aligned(base, ones)
    requires k < Pow2(8 * |base| - ones)
    ensures SharePrefix(SuccN(base, k), base, ones)
  {
    hide SuccN, Value, Pow2, Pow256, SharePrefix, Aligned, BitsValue, BitsOf;
    var hosts := Pow2(8 * |base| - ones);
    AlignedIsMultiple(base, ones);
    SuccNAdds(base, k);
    RemainderOf(Value(SuccN(base, k)), hosts, Value(base) / hosts, k);
    SharePrefixIsQuotient(SuccN(base, k), base, ones);
  }

  // ---------- Generator ----------

  lemma SuccNNext(s: seq<byte>, k: nat)
    ensures SuccN(s, k + 1) == Succ(SuccN(s, k))
  {
  }

  class Generator {
    const ip: array<byte>        // IPNet.IP, shared with the caller
    const count: nat
    var idx: nat
    var current: array<byte>
    ghost const base: seq<byte>  // the address the generator was made from

    ghost predicate Valid()
      reads this, ip, current
    {
      && ip != current
      && ip[..] == base
      && current[..] == SuccN(base, if idx < count then idx else count)
    }

    /** NewFromIPNet; `ones` and `bits` are what Mask.Size returns. */
    constructor (ip: array<byte>, ones: nat, bits: nat)
      requires ones <= bits
      ensures Valid() && fresh(current)
      ensures this.ip == ip && base == ip[..] && idx == 0 && count == Pow2(bits - ones)
    {
      var newIP := new byte[ip.Length];
      forall i | 0 <= i < ip.Length { newIP[i] := ip[i]; }
      this.ip, base := ip, ip[..];
      count, idx, current := Pow2(bits - ones), 0, newIP;
      new;
      assert newIP[..] == ip[..];
    }

    /** The k-th call returns base + k-1 in an array of its own while k <= count, and nil from then on. */
    method Next() returns (r: array?<byte>)
      requires Valid()
      modifies this`idx, current
      ensures Valid() && idx == old(idx) + 1 && current == old(current)
      ensures r == null <==> idx > count
      ensures r != null ==> fresh(r) && r[..] == SuccN(base, idx - 1)
    {
      hide SuccN, Succ;
      SuccNNext(base, idx);
      idx := idx + 1;
      if idx > count {
        return null;
      }
      var copied := new byte[current.Length];
      forall i | 0 <= i < current.Length { copied[i] := current[i]; }
      ghost var was := current[..];
      assert copied[..] == was == SuccN(base, idx - 1);
      Increment(current);
      assert current[..] == Succ(was) == SuccN(base, idx);
      return copied;
    }

    method First() returns (r: array<byte>)
      requires Valid()
      ensures r == ip && r[..] == base
    {
      return ip;
    }
  }

  /** Calling Next until it returns nil, as the address handlers do, and keeping every result: no
      later call has changed an earlier one. */
  method Drain(g: Generator) returns (all: seq<array<byte>>)
    requires g.Valid() && g.idx == 0
    modifies g`idx, g.current
    ensures |all| == g.count
    ensures forall k :: 0 <= k < |all| ==> all[k][..] == SuccN(g.base, k)
  {
    hide SuccN;
    all := [];
    var next := g.Next();
    while next != null
      invariant g.Valid() && g.idx == |all| + 1 && g.current == old(g.current)
      invariant next == null <==> g.idx > g.count
      invariant |all| <= g.count
      invariant next != null ==> fresh(next) && next[..] == SuccN(g.base, |all|)
      invariant forall k :: 0 <= k < |all| ==> fresh(all[k]) && all[k][..] == SuccN(g.base, k)
      decreases g.count + 1 - g.idx
    {
      all := all + [next];
      next := g.Next();
    }
  }

  /** What Drain collects from an aligned base is the subnet: `hosts` different addresses in increasing
      order, and every address that shares the base's prefix is one of them. */
  lemma DrainedIsTheSubnet(base: seq<byte>, ones: nat, all: seq<seq<byte>>)
    requires ones <= 8 * |base| && Aligned(base, ones)
    requires |all| == Pow2(8 * |base| - ones)
    requires forall k :: 0 <= k < |all| ==> all[k] == SuccN(base, k)
    ensures forall k :: 0 <= k < |all| ==> Value(all[k]) == Value(base) + k
    ensures forall a: seq<byte> :: |a| == |base| ==> (SharePrefix(a, base, ones) <==> a in all)
  {
    hide SuccN, Value, Pow2, Pow256, SharePrefix, Aligned;
    AlignedIsMultiple(base, ones);
    forall k | 0 <= k < |all| ensures Value(all[k]) == Value(base) + k {
      SuccNAdds(base, k);
    }
    forall a: seq<byte> | |a| == |base| ensures SharePrefix(a, base, ones) <==> a in all {
      if SharePrefix(a, base, ones) {
        var k := PrefixIsReached(base, ones, a);
        assert all[k] == a;
      }
      if a in all {
        var k :| 0 <= k < |all| && all[k] == a;
        ReachedHasPrefix(base, ones, k);
      }
    }
  }
}
