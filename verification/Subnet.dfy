/** `subnetCIDRForID`: the /24 derived from the FNV-1a hash (section 2 of draft-eastlake-fnv)
    of an instance name. Names are the bytes the hash reads; machine words are natural numbers
    with the modulus written out. */
module Subnet {

  type Byte = n: nat | n < 256

  type Name = seq<Byte>

  const OffsetBasis: nat := 2166136261
  const Prime: nat := 16777619
  const Word: nat := 0x1_0000_0000

  /** Bitwise exclusive or of the lowest `bits` bits. */
  function Xor(x: nat, y: nat, bits: nat): nat {
    if bits == 0 then 0 else (x + y) % 2 + 2 * Xor(x / 2, y / 2, bits - 1)
  }

  /** Exclusive or, bit by bit: bit `i` of the result is set exactly when the operands differ in it. */
  lemma {:induction false} XorBits(x: nat, y: nat, n: nat, i: nat)
    requires i < n
    ensures Pow2(i) > 0 && (Bit(Xor(x, y, n), i) <==> Bit(x, i) != Bit(y, i))
    decreases n
  {
    var z := Xor(x / 2, y / 2, n - 1);
    assert Xor(x, y, n) == (x + y) % 2 + 2 * z;
    hide Xor;
    if i == 0 {
      LowestBit((x + y) % 2, z);
      Parity(x, y);
    } else {
      XorBits(x / 2, y / 2, n - 1, i - 1);
      HigherBit(Xor(x, y, n), i);
      HigherBit(x, i);
      HigherBit(y, i);
      LowestBit((x + y) % 2, z);
    }
  }

  predicate Bit(x: nat, i: nat) { Pow2(i) > 0 && (x / Pow2(i)) % 2 == 1 }

  lemma LowestBit(b: nat, z: nat)
    requires b < 2
    ensures (b + 2 * z) / 2 == z && (b + 2 * z) % 2 == b
  {
  }

  lemma Parity(x: nat, y: nat)
    ensures (x + y) % 2 == 1 <==> (x % 2 == 1) != (y % 2 == 1)
  {
  }

  /** Bit `i` of a number is bit `i - 1` of its half. */
  lemma HigherBit(x: nat, i: nat)
    requires i > 0
    ensures Bit(x, i) <==> Bit(x / 2, i - 1)
  {
    Pow2Positive(i - 1);
    assert Pow2(i) == 2 * Pow2(i - 1);
    hide Pow2;
    EvenModulus(x, Pow2(i - 1));
  }

  lemma {:induction false} Pow2Positive(n: nat)
    ensures Pow2(n) > 0
  {
    if n > 0 { Pow2Positive(n - 1); }
  }

  /** FNV-1a: xor the byte in, then multiply, modulo 2^32. */
  function Hash(name: Name): nat {
    if name == [] then OffsetBasis
    else (Xor(Hash(name[..|name| - 1]), name[|name| - 1], 32) * Prime) % Word
  }

  /** Hashing one more byte. */
  lemma HashSnoc(init: Name, b: Byte)
    ensures Hash(init + [b]) == (Xor(Hash(init), b, 32) * Prime) % Word
  {
    assert (init + [b])[..|init|] == init;
  }

  lemma Unfold(x: nat, y: nat, n: nat)
    requires n > 0
    ensures Xor(x, y, n) == (x + y) % 2 + 2 * Xor(x / 2, y / 2, n - 1)
  {
  }

  lemma {:induction false} XorZero(x: nat, n: nat)
    requires x < Pow2(n)
    ensures Xor(x, 0, n) == x
    decreases n
  {
    if n > 0 { XorZero(x / 2, n - 1); }
  }

  lemma XorOfA()
    ensures Xor(OffsetBasis, 97, 32) == 2166136228
  {
    assert Pow2(5) == 32;
    assert Pow2(10) == 1024;
    assert Pow2(15) == 32768;
    assert Pow2(20) == 1048576;
    assert Pow2(25) == 33554432;
    hide Xor, Pow2;
    Unfold(2166136261, 97, 32);
    Unfold(1083068130, 48, 31);
    Unfold(541534065, 24, 30);
    Unfold(270767032, 12, 29);
    Unfold(135383516, 6, 28);
    Unfold(67691758, 3, 27);
    Unfold(33845879, 1, 26);
    XorZero(16922939, 25);
  }

  lemma EmptyHash()
    ensures Hash([]) == OffsetBasis
  {
  }

  /** Published test vectors of FNV-1a, for "" and "a", and the subnet they give "a". */
  lemma TestVectors()
    ensures Hash([]) == 0x811C9DC5 && Hash([97]) == 0xE40C292C
    ensures SubnetOf([97]) == Octets(141, 44) && Gateway([97]) == Quad(10, 141, 44, 1)
  {
    hide Xor, Hash;
    EmptyHash();
    XorOfA();
    HashSnoc([], 97);
    assert [] + [97] == [97];
  }

  /** The second and third octets of 10.A.B.0/24: `100 + (v >> 8 & 0x7F)` and `v & 0xFF`. */
  datatype Octets = Octets(a: nat, b: nat)

  function OctetsOf(v: nat): Octets { Octets(100 + v / 256 % 128, v % 256) }

  function SubnetOf(name: Name): Octets { OctetsOf(Hash(name)) }

  /** The dotted quad `q.r.s.t` as a number. */
  function Quad(q: nat, r: nat, s: nat, t: nat): nat { ((q * 256 + r) * 256 + s) * 256 + t }

  function Gateway(name: Name): nat { Quad(10, SubnetOf(name).a, SubnetOf(name).b, 1) }

  /** The addresses of 10.A.B.0/24. */
  predicate Contains(o: Octets, address: nat) {
    Quad(10, o.a, o.b, 0) <= address <= Quad(10, o.a, o.b, 255)
  }

  // ---- The fifteen bits that matter ----

  function Low(v: nat): nat { v % 32768 }

  /** Octets and the low fifteen bits of the hash determine each other. */
  lemma OctetsAreLowBits(v: nat, w: nat)
    ensures OctetsOf(v) == OctetsOf(w) <==> Low(v) == Low(w)
  {
    LowSplits(v);
    LowSplits(w);
  }

  lemma LowSplits(v: nat)
    ensures Low(v) == (OctetsOf(v).a - 100) * 256 + OctetsOf(v).b
    ensures 100 <= OctetsOf(v).a <= 227 && OctetsOf(v).b <= 255
  {
    var q, r := v / 256, v % 256;
    assert v == 256 * q + r && q == 128 * (q / 128) + q % 128;
    assert v == 32768 * (q / 128) + (256 * (q % 128) + r);
  }

  /** A fifteen-bit recurrence computes the subnet: the prime acts as 403. */
  function Fold(name: Name): nat {
    if name == [] then 7621
    else Low(Xor(Fold(name[..|name| - 1]), name[|name| - 1], 15) * 403)
  }

  function Pow2(n: nat): nat { if n == 0 then 1 else 2 * Pow2(n - 1) }

  /** Dropping high bits commutes with xor. */
  lemma {:induction false} XorLow(x: nat, y: nat, n: nat, m: nat)
    requires n <= m
    ensures Pow2(n) > 0 && Xor(x, y, m) % Pow2(n) == Xor(x % Pow2(n), y, n)
    decreases n
  {
    if n > 0 {
      XorLow(x / 2, y / 2, n - 1, m - 1);
      XorLowStep(x, y, n, m, Pow2(n - 1));
    }
  }

  lemma XorLowStep(x: nat, y: nat, n: nat, m: nat, p: nat)
    requires 0 < n <= m && p > 0 && Xor(x / 2, y / 2, m - 1) % p == Xor((x / 2) % p, y / 2, n - 1)
    ensures Xor(x, y, m) % (2 * p) == Xor(x % (2 * p), y, n)
  {
    var z, b, w := Xor(x / 2, y / 2, m - 1), (x + y) % 2, x % (2 * p);
    assert Xor(x, y, m) == b + 2 * z && Xor(w, y, n) == (w + y) % 2 + 2 * Xor(w / 2, y / 2, n - 1);
    hide Xor;
    DoubleMod(b, z, p);
    EvenModulus(x, p);
    ParityAdd(w, x, y);
  }

  lemma ParityAdd(w: nat, x: nat, y: nat)
    requires w % 2 == x % 2
    ensures (w + y) % 2 == (x + y) % 2
  {
  }

  lemma DivMod(x: nat, p: nat, q: nat, r: nat)
    requires p > 0 && x == q * p + r && r < p
    ensures x / p == q && x % p == r
  {
    SmallMultiple(x / p - q, p, r - x % p);
  }

  lemma SmallMultiple(k: int, p: int, e: int)
    requires k * p == e && -p < e < p
    ensures k == 0
  {
    assert k >= 1 ==> k * p >= p;
    assert k <= -1 ==> k * p <= -p;
  }

  /** Halving and parity commute with an even modulus. */
  lemma EvenModulus(x: nat, p: nat)
    requires p > 0
    ensures (x % (2 * p)) / 2 == (x / 2) % p && (x % (2 * p)) % 2 == x % 2 && x / (2 * p) == x / 2 / p
  {
    var q, r := x / 2 / p, (x / 2) % p;
    assert x / 2 == q * p + r;
    assert x == q * (2 * p) + (2 * r + x % 2);
    DivMod(x, 2 * p, q, 2 * r + x % 2);
  }

  lemma DoubleMod(b: nat, z: nat, p: nat)
    requires p > 0 && b < 2
    ensures (b + 2 * z) % (2 * p) == b + 2 * (z % p)
  {
    var q, r := z / p, z % p;
    assert z == q * p + r;
    assert b + 2 * z == q * (2 * p) + (b + 2 * r);
    DivMod(b + 2 * z, 2 * p, q, b + 2 * r);
  }

  lemma LowOfWord(y: nat)
    ensures Low(y % Word) == Low(y)
  {
    var k, r := y / Word, y % Word;
    assert y == 32768 * (131072 * k + r / 32768) + r % 32768;
    DivMod(y, 32768, 131072 * k + r / 32768, r % 32768);
  }

  lemma StepLow(x: nat)
    ensures Low((x * Prime) % Word) == Low(Low(x) * 403)
  {
    LowOfWord(x * Prime);
    var q, r := x / 32768, x % 32768;
    var c, d := r * 403 / 32768, r * 403 % 32768;
    assert x == 32768 * q + r && r * 403 == 32768 * c + d;
    assert x * Prime == x * 16777216 + x * 403 == 32768 * (x * 512) + 32768 * (q * 403) + r * 403;
    DivMod(x * Prime, 32768, x * 512 + q * 403 + c, d);
  }

  lemma {:induction false} FoldIsLowHash(name: Name)
    ensures Low(Hash(name)) == Fold(name)
  {
    if name != [] {
      var init, b := name[..|name| - 1], name[|name| - 1];
      FoldIsLowHash(init);
      XorLow(Hash(init), b, 15, 32);
      assert Pow2(15) == 32768;
      StepLow(Xor(Hash(init), b, 32));
    }
  }

  // ---- One changed byte always changes the subnet ----

  /** 403 * 17563 is 1 modulo 32768. */
  lemma Undo(x: nat)
    requires x < 32768
    ensures Low(Low(x * 403) * 17563) == x
  {
    var p, u := x * 403 / 32768, x * 403 % 32768;
    var c, d := u * 17563 / 32768, u * 17563 % 32768;
    assert x * 403 == 32768 * p + u && u * 17563 == 32768 * c + d;
    assert x * 403 * 17563 == x + 32768 * (x * 216);
    assert x * 403 * 17563 == 32768 * (p * 17563 + c) + d;
    DivMod(x * 403 * 17563, 32768, x * 216, x);
    DivMod(x * 403 * 17563, 32768, p * 17563 + c, d);
  }

  lemma MultiplierInvertible(x: nat, y: nat)
    requires x < 32768 && y < 32768 && Low(x * 403) == Low(y * 403)
    ensures x == y
  {
    Undo(x);
    Undo(y);
  }

  lemma {:induction false} XorBound(x: nat, y: nat, n: nat)
    ensures Xor(x, y, n) < Pow2(n)
    decreases n
  {
    if n > 0 { XorBound(x / 2, y / 2, n - 1); }
  }

  lemma SplitXor(a: nat, b: nat, p: nat, q: nat)
    requires a < 2 && b < 2 && a + 2 * p == b + 2 * q
    ensures a == b && p == q
  {
  }

  lemma Halves(x: nat, y: nat)
    ensures x == y <==> x / 2 == y / 2 && x % 2 == y % 2
  {
  }

  lemma HalfBound(x: nat, p: nat)
    requires x < 2 * p
    ensures x / 2 < p
  {
  }

  lemma ParityInjective(x: nat, y: nat, u: nat, v: nat)
    requires (x + u) % 2 == (y + v) % 2
    ensures x % 2 == y % 2 <==> u % 2 == v % 2
  {
  }

  /** Xor with a fixed operand is injective, on either side. */
  lemma {:induction false} XorInjective(x: nat, y: nat, u: nat, v: nat, n: nat)
    requires x < Pow2(n) && y < Pow2(n) && u < Pow2(n) && v < Pow2(n) && Xor(x, u, n) == Xor(y, v, n)
    ensures x == y <==> u == v
    decreases n
  {
    if n > 0 {
      var half, p, q := Pow2(n - 1), Xor(x / 2, u / 2, n - 1), Xor(y / 2, v / 2, n - 1);
      assert Pow2(n) == 2 * half && Xor(x, u, n) == (x + u) % 2 + 2 * p && Xor(y, v, n) == (y + v) % 2 + 2 * q;
      hide Xor, Pow2;
      SplitXor((x + u) % 2, (y + v) % 2, p, q);
      HalfBound(x, half);
      HalfBound(y, half);
      HalfBound(u, half);
      HalfBound(v, half);
      XorInjective(x / 2, y / 2, u / 2, v / 2, n - 1);
      ParityInjective(x, y, u, v);
      Halves(x, y);
      Halves(u, v);
    }
  }

  lemma {:induction false} FoldBound(name: Name)
    ensures Fold(name) < 32768
  {
  }

  /** From different states the same byte, and from the same state different bytes, lead to
      different states. */
  lemma StepInjective(s: nat, t: nat, b: Byte, c: Byte)
    requires s < 32768 && t < 32768 && (s == t) != (b == c)
    ensures Low(Xor(s, b, 15) * 403) != Low(Xor(t, c, 15) * 403)
  {
    assert Pow2(15) == 32768;
    XorBound(s, b, 15);
    XorBound(t, c, 15);
    if Low(Xor(s, b, 15) * 403) == Low(Xor(t, c, 15) * 403) {
      MultiplierInvertible(Xor(s, b, 15), Xor(t, c, 15));
      XorInjective(s, t, b, c, 15);
    }
  }

  lemma {:induction false} FoldSeparates(m: Name, n: Name, k: nat)
    requires k < |m| == |n| && m[k] != n[k] && (forall i | 0 <= i < |m| && i != k :: m[i] == n[i])
    ensures Fold(m) != Fold(n)
    decreases |m|
  {
    var p, q, last := m[..|m| - 1], n[..|n| - 1], |m| - 1;
    FoldBound(p);
    FoldBound(q);
    if k == last {
      assert p == q;
    } else {
      FoldSeparates(p, q, k);
    }
    StepInjective(Fold(p), Fold(q), m[last], n[last]);
  }

  /** Names of equal length that differ in exactly one byte never share a subnet. */
  lemma OneByteApart(m: Name, n: Name, k: nat)
    requires k < |m| == |n| && m[k] != n[k] && (forall i | 0 <= i < |m| && i != k :: m[i] == n[i])
    ensures SubnetOf(m) != SubnetOf(n)
  {
    FoldSeparates(m, n, k);
    FoldIsLowHash(m);
    FoldIsLowHash(n);
    OctetsAreLowBits(Hash(m), Hash(n));
  }

  // ---- Addresses ----

  /** Subnets lie in 10.100.0.0 to 10.227.255.255, inside 10.0.0.0/8 (section 3 of RFC 1918)
      and away from the default consumer VLAN 10.50.0.0/24; the gateway is a host of its own. */
  lemma SubnetRange(name: Name, address: nat)
    requires Contains(SubnetOf(name), address)
    ensures Quad(10, 100, 0, 0) <= address <= Quad(10, 227, 255, 255)
    ensures Quad(10, 0, 0, 0) <= address <= Quad(10, 255, 255, 255)
    ensures !(Quad(10, 50, 0, 0) <= address <= Quad(10, 50, 0, 255))
    ensures Contains(SubnetOf(name), Gateway(name)) && Gateway(name) == Quad(10, SubnetOf(name).a, SubnetOf(name).b, 0) + 1
  {
    LowSplits(Hash(name));
  }

  /** Two subnets are the same or have no address in common. */
  lemma SameOrDisjoint(m: Name, n: Name, address: nat)
    requires Contains(SubnetOf(m), address) && Contains(SubnetOf(n), address)
    ensures SubnetOf(m) == SubnetOf(n)
  {
    LowSplits(Hash(m));
    LowSplits(Hash(n));
  }

  // ---- Pigeonhole ----

  lemma {:induction false} SmallSet(s: set<nat>, n: nat)
    requires forall x | x in s :: x < n
    ensures |s| <= n
    decreases n
  {
    if n == 0 {
      assert s == {};
    } else {
      SmallSet(s - {n - 1}, n - 1);
    }
  }

  lemma {:induction false} InjectiveImage<T>(codes: map<T, nat>)
    requires forall m, n | m in codes && n in codes && m != n :: codes[m] != codes[n]
    ensures |codes.Values| == |codes|
    decreases |codes|
  {
    if codes.Keys == {} {
      assert codes.Values == {};
    } else {
      var m :| m in codes;
      var rest := codes - {m};
      InjectiveImage(rest);
      forall v | v in codes.Values ensures v in rest.Values + {codes[m]} {
        var k :| k in codes && codes[k] == v;
        if k != m { assert rest[k] == v; }
      }
      forall v | v in rest.Values ensures v in codes.Values {
        var k :| k in rest && rest[k] == v;
        assert codes[k] == v;
      }
      assert codes.Values == rest.Values + {codes[m]};
      assert codes[m] !in rest.Values;
      assert codes.Keys == rest.Keys + {m};
    }
  }

  function Code(name: Name): nat { Low(Hash(name)) }

  /** There are 32768 subnets, so any larger set of names contains a collision. */
  lemma CollisionsUnavoidable(names: set<Name>)
    requires |names| > 32768
    ensures exists m, n :: m in names && n in names && m != n && SubnetOf(m) == SubnetOf(n)
  {
    hide Hash;
    var codes := map n | n in names :: Code(n);
    assert codes.Keys == names;
    if forall m, n | m in codes && n in codes && m != n :: codes[m] != codes[n] {
      InjectiveImage(codes);
      SmallSet(codes.Values, 32768);
      assert false;
    }
    var m, n :| m in codes && n in codes && m != n && codes[m] == codes[n];
    OctetsAreLowBits(Hash(m), Hash(n));
    assert SubnetOf(m) == SubnetOf(n);
  }
}
