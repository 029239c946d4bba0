/** IP addresses, CIDR prefixes and the mask arithmetic of `network_prefix`. */
module Prefix {

  function Pow2(n: nat): (r: nat)
    ensures r >= 1
  {
    if n == 0 then 1 else 2 * Pow2(n - 1)
  }

  datatype Family = V4 | V6

  /** Address width in bits: `u32` and `u128`. */
  function Width(family: Family): nat {
    if family.V4? then 32 else 128
  }

  /** One past the largest address, as a `u32` or a `u128`. */
  function Limit(family: Family): nat {
    if family.V4? then 0x1_0000_0000 else 0x1_00000000_00000000_00000000_00000000
  }

  lemma {:induction false} Pow2Add(m: nat, n: nat)
    ensures Pow2(m + n) == Pow2(m) * Pow2(n)
    decreases m
  {
    if m > 0 {
      Pow2Add(m - 1, n);
      var x, y := Pow2(m - 1), Pow2(n);
      assert 2 * (x * y) == (2 * x) * y;
    }
  }

  lemma LimitIsPow2(family: Family)
    ensures Limit(family) == Pow2(Width(family))
  {
    var n := 4;
    var v := 16;
    assert Pow2(n) == v;
    Pow2Add(n, n);
    n, v := n + n, v * v;
    Pow2Add(n, n);
    n, v := n + n, v * v;
    Pow2Add(n, n);
    n, v := n + n, v * v;
    if family.V6? {
      Pow2Add(n, n);
      n, v := n + n, v * v;
      Pow2Add(n, n);
      n, v := n + n, v * v;
    }
  }

  datatype Address = Address(family: Family, bits: nat)

  type IpAddr = a: Address | a.bits < Limit(a.family) witness Address(V4, 0)

  datatype AddressMask = AddressMask(address: IpAddr, cidr: nat)

  /** An address with a prefix length, as `IpAddrMask` holds it: host bits may be set. */
  type IpAddrMask = p: AddressMask | p.cidr <= Width(p.address.family) witness AddressMask(Address(V4, 0), 0)

  /** How defguard recognises a default route: the address is all zeros. The length is not looked at. */
  predicate IsUnspecified(a: IpAddr) {
    a.bits == 0
  }

  /** Bit `i` of `x`, counted from the least significant. */
  predicate Bit(x: nat, i: nat)
    decreases i
  {
    if i == 0 then x % 2 == 1 else Bit(x / 2, i - 1)
  }

  /** The machine's `&` on two unsigned words. */
  function BitAnd(x: nat, y: nat): nat
    decreases x
  {
    if x == 0 then 0
    else 2 * BitAnd(x / 2, y / 2) + (if x % 2 == 1 && y % 2 == 1 then 1 else 0)
  }

  function Shl(x: nat, n: nat): nat {
    if n == 0 then x else 2 * Shl(x, n - 1)
  }

  /** `mask()`: `cidr` ones followed by zeros, in a word of `width` bits. */
  function Mask(width: nat, cidr: nat): nat
    requires cidr <= width
  {
    Shl(Pow2(cidr) - 1, width - cidr)
  }

  lemma {:induction false} BitAndBits(x: nat, y: nat, i: nat)
    ensures Bit(BitAnd(x, y), i) <==> Bit(x, i) && Bit(y, i)
    decreases i
  {
    if x == 0 {
      ZeroBits(i);
    } else if i > 0 {
      assert BitAnd(x, y) / 2 == BitAnd(x / 2, y / 2);
      BitAndBits(x / 2, y / 2, i - 1);
    }
  }

  lemma ZeroBits(i: nat)
    ensures !Bit(0, i)
  {
  }

  lemma {:induction false} ShlBits(x: nat, n: nat, i: nat)
    ensures Bit(Shl(x, n), i) <==> i >= n && Bit(x, i - n)
  {
    if n > 0 && i > 0 {
      assert Shl(x, n) / 2 == Shl(x, n - 1);
      ShlBits(x, n - 1, i - 1);
    }
  }

  lemma {:induction false} OnesBits(n: nat, i: nat)
    ensures Bit(Pow2(n) - 1, i) <==> i < n
    decreases n
  {
    if n == 0 {
      ZeroBits(i);
    } else if i > 0 {
      assert (Pow2(n) - 1) / 2 == Pow2(n - 1) - 1;
      OnesBits(n - 1, i - 1);
    }
  }

  lemma {:induction false} HighBits(x: nat, n: nat, i: nat)
    requires x < Pow2(n) && n <= i
    ensures !Bit(x, i)
    decreases n
  {
    if n == 0 {
      ZeroBits(i);
    } else {
      HighBits(x / 2, n - 1, i - 1);
    }
  }

  lemma {:induction false} MaskBits(width: nat, cidr: nat, i: nat)
    requires cidr <= width
    ensures Bit(Mask(width, cidr), i) <==> width - cidr <= i < width
  {
    ShlBits(Pow2(cidr) - 1, width - cidr, i);
    if i >= width - cidr {
      OnesBits(cidr, i - (width - cidr));
    }
  }

  /** Two words of `n` bits that agree on every bit are equal. */
  lemma {:induction false} EqualBits(x: nat, y: nat, n: nat)
    requires x < Pow2(n) && y < Pow2(n)
    requires forall i: nat :: i < n ==> Bit(x, i) == Bit(y, i)
    ensures x == y
    decreases n
  {
    if n > 0 {
      forall i: nat | i < n - 1 ensures Bit(x / 2, i) == Bit(y / 2, i) {
        assert Bit(x, i + 1) == Bit(y, i + 1);
      }
      EqualBits(x / 2, y / 2, n - 1);
      assert Bit(x, 0) == Bit(y, 0);
    }
  }

  lemma {:induction false} BitAndBound(x: nat, y: nat)
    ensures BitAnd(x, y) <= x
    decreases x
  {
    if x > 0 {
      BitAndBound(x / 2, y / 2);
    }
  }

  /** The prefix with its host bits cleared. */
  function NetworkPrefix(p: IpAddrMask): (r: IpAddrMask)
    ensures r.cidr == p.cidr && r.address.family == p.address.family
  {
    var w := Width(p.address.family);
    BitAndBound(p.address.bits, Mask(w, p.cidr));
    AddressMask(Address(p.address.family, BitAnd(p.address.bits, Mask(w, p.cidr))), p.cidr)
  }

  predicate Canonical(p: IpAddrMask) {
    NetworkPrefix(p) == p
  }

  /** The addresses a prefix denotes: those agreeing with it on the first `cidr` bits. */
  ghost predicate Covers(p: IpAddrMask, x: IpAddr) {
    && x.family == p.address.family
    && var w := Width(x.family);
       forall i: nat :: w - p.cidr <= i < w ==> Bit(x.bits, i) == Bit(p.address.bits, i)
  }

  /** Canonicalising keeps the leading bits and clears the rest. */
  lemma NetworkPrefixBits(p: IpAddrMask, i: nat)
    ensures var w := Width(p.address.family);
            Bit(NetworkPrefix(p).address.bits, i) <==> w - p.cidr <= i < w && Bit(p.address.bits, i)
  {
    var w := Width(p.address.family);
    BitAndBits(p.address.bits, Mask(w, p.cidr), i);
    MaskBits(w, p.cidr, i);
  }

  lemma NetworkPrefixIdempotent(p: IpAddrMask)
    ensures Canonical(NetworkPrefix(p))
  {
    var n := NetworkPrefix(p);
    forall i: nat | i < Width(p.address.family)
      ensures Bit(NetworkPrefix(n).address.bits, i) == Bit(n.address.bits, i)
    {
      NetworkPrefixBits(n, i);
      NetworkPrefixBits(p, i);
    }
    LimitIsPow2(p.address.family);
    EqualBits(NetworkPrefix(n).address.bits, n.address.bits, Width(p.address.family));
  }

  lemma NetworkPrefixSameSet(p: IpAddrMask, x: IpAddr)
    ensures Covers(NetworkPrefix(p), x) <==> Covers(p, x)
  {
    var w := Width(p.address.family);
    forall i: nat | w - p.cidr <= i < w
      ensures Bit(NetworkPrefix(p).address.bits, i) == Bit(p.address.bits, i)
    {
      NetworkPrefixBits(p, i);
    }
  }

  /** Two prefixes of one length that share an address are the same prefix once canonical. */
  lemma SameLengthOverlap(p: IpAddrMask, q: IpAddrMask, x: IpAddr)
    requires p.cidr == q.cidr && Covers(p, x) && Covers(q, x)
    ensures NetworkPrefix(p) == NetworkPrefix(q)
  {
    var w := Width(x.family);
    forall i: nat | i < w
      ensures Bit(NetworkPrefix(p).address.bits, i) == Bit(NetworkPrefix(q).address.bits, i)
    {
      NetworkPrefixBits(p, i);
      NetworkPrefixBits(q, i);
      if w - p.cidr <= i {
        assert Bit(x.bits, i) == Bit(p.address.bits, i);
        assert Bit(x.bits, i) == Bit(q.address.bits, i);
      }
    }
    LimitIsPow2(x.family);
    EqualBits(NetworkPrefix(p).address.bits, NetworkPrefix(q).address.bits, w);
  }

  /** `x` with bit `i` inverted. */
  ghost function Flip(x: nat, i: nat): nat
    decreases i
  {
    if i == 0 then (if x % 2 == 1 then x - 1 else x + 1)
    else 2 * Flip(x / 2, i - 1) + x % 2
  }

  lemma {:induction false} FlipBits(x: nat, i: nat, j: nat)
    ensures Bit(Flip(x, i), j) <==> (Bit(x, j) != (i == j))
    decreases i
  {
    if i == 0 {
      if j > 0 {
        assert Flip(x, 0) / 2 == x / 2;
      }
    } else {
      assert Flip(x, i) / 2 == Flip(x / 2, i - 1);
      if j > 0 {
        FlipBits(x / 2, i - 1, j - 1);
      }
    }
  }

  lemma {:induction false} FlipBound(x: nat, i: nat, n: nat)
    requires x < Pow2(n) && i < n
    ensures Flip(x, i) < Pow2(n)
    decreases i
  {
    var half := Pow2(n - 1);
    assert Pow2(n) == 2 * half;
    assert x / 2 < half;
    if i > 0 {
      FlipBound(x / 2, i - 1, n - 1);
      assert Flip(x / 2, i - 1) <= half - 1;
    }
  }

  /** A shorter prefix holds an address that a longer one does not. */
  lemma ShorterIsLarger(p: IpAddrMask, q: IpAddrMask)
    requires p.address.family == q.address.family && p.cidr < q.cidr
    ensures exists x: IpAddr :: Covers(p, x) && !Covers(q, x)
  {
    var w := Width(p.address.family);
    var a := p.address;
    if Covers(q, a) {
      var k := w - q.cidr;
      LimitIsPow2(a.family);
      FlipBound(a.bits, k, w);
      var x: IpAddr := Address(a.family, Flip(a.bits, k));
      forall i: nat | w - p.cidr <= i < w ensures Bit(x.bits, i) == Bit(a.bits, i) {
        FlipBits(a.bits, k, i);
      }
      FlipBits(a.bits, k, k);
      assert Bit(a.bits, k) == Bit(q.address.bits, k);
      assert Covers(p, x) && !Covers(q, x);
    } else {
      assert Covers(p, a);
    }
  }

  /** The canonical form decides equality of the denoted sets, across families and lengths. */
  lemma CanonicalEqualIffSameSet(p: IpAddrMask, q: IpAddrMask)
    ensures NetworkPrefix(p) == NetworkPrefix(q) <==> (forall x: IpAddr :: Covers(p, x) <==> Covers(q, x))
  {
    if NetworkPrefix(p) == NetworkPrefix(q) {
      forall x: IpAddr ensures Covers(p, x) <==> Covers(q, x) {
        NetworkPrefixSameSet(p, x);
        NetworkPrefixSameSet(q, x);
      }
    }
    if forall x: IpAddr :: Covers(p, x) <==> Covers(q, x) {
      assert Covers(p, p.address) && Covers(q, p.address);
      if p.cidr < q.cidr {
        ShorterIsLarger(p, q);
      } else if q.cidr < p.cidr {
        ShorterIsLarger(q, p);
      } else {
        SameLengthOverlap(p, q, p.address);
      }
    }
  }
}
