/**
 The SPAKE2 exchange over any abelian group (libadb/src/pairing/spake2.rs). What
 is known of the curve: it is an abelian group, the base point has the order
 `Ell`, and decompressing a compressed point gives it back.
 */
module Spake2Exchange {
  import opened Prelude
  import opened Spake2

  datatype Group<!G> = Group(
    add: (G, G) -> G,
    zero: G,
    neg: G -> G,
    base: G,
    m: G,
    n: G,
    compress: G -> seq<byte>,
    decompress: seq<byte> -> Option<G>)

  ghost predicate Abelian<G(!new)>(g: Group<G>) {
    && (forall a, b, c :: g.add(g.add(a, b), c) == g.add(a, g.add(b, c)))
    && (forall a, b :: g.add(a, b) == g.add(b, a))
    && (forall a :: g.add(a, g.zero) == a)
    && (forall a :: g.add(a, g.neg(a)) == g.zero)
  }

  lemma Assoc<G(!new)>(g: Group<G>, a: G, b: G, c: G)
    requires Abelian(g)
    ensures g.add(g.add(a, b), c) == g.add(a, g.add(b, c))
  {
  }

  lemma Comm<G(!new)>(g: Group<G>, a: G, b: G)
    requires Abelian(g)
    ensures g.add(a, b) == g.add(b, a)
  {
  }

  lemma Unit<G(!new)>(g: Group<G>, a: G)
    requires Abelian(g)
    ensures g.add(a, g.zero) == a && g.add(a, g.neg(a)) == g.zero
  {
  }

  /** `n` times a point, by definition. */
  ghost function Times<G>(g: Group<G>, n: nat, p: G): G {
    if n == 0 then g.zero else g.add(Times(g, n - 1, p), p)
  }

  // ---- double and add ----

  lemma {:induction false} TimesAdd<G(!new)>(g: Group<G>, a: nat, b: nat, p: G)
    requires Abelian(g)
    ensures Times(g, a + b, p) == g.add(Times(g, a, p), Times(g, b, p))
  {
    hide Abelian;
    if b == 0 {
      Unit(g, Times(g, a, p));
    } else {
      TimesAdd(g, a, b - 1, p);
      Assoc(g, Times(g, a, p), Times(g, b - 1, p), p);
    }
  }

  function Pow2(n: nat): (p: nat)
    ensures p > 0
  {
    if n == 0 then 1 else 2 * Pow2(n - 1)
  }

  /** The top bits of a byte, one more at a time. */
  lemma NextBit(b: byte, bit: nat)
    requires bit < 8
    ensures b / Pow2(bit) == 2 * (b / Pow2(bit + 1)) + (b / Pow2(bit)) % 2
  {
    var p := Pow2(bit);
    HalfOf(b, p);
  }

  lemma HalfOf(x: nat, p: nat)
    requires p > 0
    ensures x / (2 * p) == (x / p) / 2
  {
    var q := x / p;
    assert x == q * p + x % p;
    var h := q / 2;
    Distribute(2 * h, q % 2, p);
    assert (2 * h) * p == h * (2 * p);
    var r := (q % 2) * p + x % p;
    MulLe(q % 2, 1, p);
    DivIs(r, h, 2 * p, x);
  }

  lemma DivIs(r: nat, q: nat, m: nat, total: nat)
    requires m > 0 && r < m && total == r + q * m
    ensures q == total / m
  {
    var d := total / m;
    assert total == d * m + total % m;
    Distribute(d, 1, m);
    Distribute(q, 1, m);
    if d < q { MulLe(d + 1, q, m); } else if q < d { MulLe(q + 1, d, m); }
  }

  /** One bit of `mul_raw`: double, add, and keep one of the two. */
  method DoubleAndAdd<G(!new)>(g: Group<G>, acc: G, point: G, take: bool, ghost v: nat) returns (r: G)
    requires Abelian(g) && acc == Times(g, v, point)
    ensures r == Times(g, 2 * v + (if take then 1 else 0), point)
  {
    hide Abelian;
    var doubled := g.add(acc, acc);
    TimesAdd(g, v, v, point);
    var sum := g.add(doubled, point);
    r := if take then sum else doubled;
  }

  /** `mul_raw`: the exact integer multiple, in any abelian group. */
  method MulRaw<G(!new)>(g: Group<G>, point: G, scalar: seq<byte>) returns (acc: G)
    requires Abelian(g)
    ensures acc == Times(g, Number(scalar), point)
  {
    hide Abelian;
    acc := g.zero;
    var i: nat := |scalar|;
    assert scalar[i..] == [];
    while i > 0
      invariant 0 <= i <= |scalar| && acc == Times(g, Number(scalar[i..]), point)
    {
      i := i - 1;
      NumberFront(scalar[i..]);
      assert scalar[i..][1..] == scalar[i + 1..];
      acc := MulByte(g, point, scalar[i], acc, Number(scalar[i + 1..]));
    }
    assert scalar[0..] == scalar;
  }

  /** The top bits of a byte behind a number: what the accumulator counts before bit `bit`. */
  ghost function TopBits(h: nat, b: byte, bit: nat): nat
    requires bit <= 8
  {
    h * Pow2(8 - bit) + b / Pow2(bit)
  }

  lemma TopBitsStep(h: nat, b: byte, bit: nat)
    requires bit < 8
    ensures TopBits(h, b, bit) == 2 * TopBits(h, b, bit + 1) + (b / Pow2(bit)) % 2
  {
    NextBit(b, bit);
    var k := 8 - bit;
    assert Pow2(k) == 2 * Pow2(k - 1);
    assert h * (2 * Pow2(k - 1)) == 2 * (h * Pow2(k - 1));
  }

  lemma TopBitsEnds(h: nat, b: byte)
    ensures TopBits(h, b, 8) == h && TopBits(h, b, 0) == b + 256 * h
  {
    assert Pow2(8) == 256 && Pow2(0) == 1;
  }

  /** The eight bits of one byte, from the top. */
  method MulByte<G(!new)>(g: Group<G>, point: G, byte0: byte, acc0: G, ghost h: nat) returns (acc: G)
    requires Abelian(g) && acc0 == Times(g, h, point)
    ensures acc == Times(g, byte0 + 256 * h, point)
  {
    hide Abelian, Times, TopBits, Pow2;
    TopBitsEnds(h, byte0);
    acc := acc0;
    var bit: nat := 8;
    while bit > 0
      invariant bit <= 8 && acc == Times(g, TopBits(h, byte0, bit), point)
    {
      bit := bit - 1;
      TopBitsStep(h, byte0, bit);
      acc := DoubleAndAdd(g, acc, point, (byte0 / Pow2(bit)) % 2 == 1, TopBits(h, byte0, bit + 1));
    }
  }

  // ---- two honest sides ----

  /** Sums of sums, regrouped. */
  lemma Regroup<G(!new)>(g: Group<G>, a: G, b: G, p: G, q: G)
    requires Abelian(g)
    ensures g.add(g.add(a, b), g.add(p, q)) == g.add(g.add(a, p), g.add(b, q))
  {
    hide Abelian;
    Assoc(g, a, b, g.add(p, q));
    Assoc(g, b, p, q);
    Comm(g, b, p);
    Assoc(g, p, b, q);
    Assoc(g, a, p, g.add(b, q));
  }

  lemma {:induction false} TimesSum<G(!new)>(g: Group<G>, n: nat, p: G, q: G)
    requires Abelian(g)
    ensures Times(g, n, g.add(p, q)) == g.add(Times(g, n, p), Times(g, n, q))
  {
    hide Abelian;
    if n == 0 {
      Unit(g, g.zero);
    } else {
      TimesSum(g, n - 1, p, q);
      Regroup(g, Times(g, n - 1, p), Times(g, n - 1, q), p, q);
    }
  }

  lemma {:induction false} TimesZero<G(!new)>(g: Group<G>, n: nat)
    requires Abelian(g)
    ensures Times(g, n, g.zero) == g.zero
  {
    hide Abelian;
    if n > 0 {
      TimesZero(g, n - 1);
      Unit(g, g.zero);
    }
  }

  /** Multiples of multiples, in either order. */
  lemma {:induction false} TimesSwap<G(!new)>(g: Group<G>, a: nat, b: nat, p: G)
    requires Abelian(g)
    ensures Times(g, a, Times(g, b, p)) == Times(g, b, Times(g, a, p))
  {
    hide Abelian;
    if b == 0 {
      TimesZero(g, a);
    } else {
      TimesSwap(g, a, b - 1, p);
      TimesSum(g, a, Times(g, b - 1, p), p);
    }
  }

  /** Taking the mask off again. */
  lemma Unmask<G(!new)>(g: Group<G>, x: G, mask: G)
    requires Abelian(g)
    ensures g.add(g.add(x, mask), g.neg(mask)) == x
  {
    hide Abelian;
    Assoc(g, x, mask, g.neg(mask));
    Unit(g, mask);
    Unit(g, x);
  }

  datatype Role = Alice | Bob

  /** One side before it hears from the other. */
  datatype Side = Side(role: Role, myName: seq<byte>, theirName: seq<byte>, key: nat, pwHash: seq<byte>, pwScalar: nat,
                       msg: seq<byte>)

  ghost function Mask<G>(g: Group<G>, role: Role): G { if role == Alice then g.m else g.n }

  /** `Spake2::new`; the base is multiplied by the key modulo the order. */
  ghost function New<G>(g: Group<G>, role: Role, myName: seq<byte>, theirName: seq<byte>, key: nat, pwHash: seq<byte>,
                        pwScalar: nat): Side
    requires Ell() > 0
  {
    var point := g.add(Times(g, key % Ell(), g.base), Times(g, pwScalar, Mask(g, role)));
    Side(role, myName, theirName, key, pwHash, pwScalar, g.compress(point))
  }

  /** `absorb`: the length as eight bytes, then the data. */
  ghost function Absorb(data: seq<byte>): seq<byte> { ToBytes(|data|, 8) + data }

  /** `Spake2::finish`: what is hashed into the key. `None`: the message is no curve point. */
  ghost function Transcript<G>(g: Group<G>, side: Side, theirs: seq<byte>): Option<seq<byte>> {
    match g.decompress(theirs)
    case None => None
    case Some(masked) =>
      var peer := Mask(g, if side.role == Alice then Bob else Alice);
      var unmasked := g.add(masked, g.neg(Times(g, side.pwScalar, peer)));
      var shared := g.compress(Times(g, side.key, unmasked));
      var alice := side.role == Alice;
      Some(Absorb(if alice then side.myName else side.theirName) + Absorb(if alice then side.theirName else side.myName)
           + Absorb(if alice then side.msg else theirs) + Absorb(if alice then theirs else side.msg)
           + Absorb(shared) + Absorb(side.pwHash))
  }

  /** A multiple of the base point depends on the scalar modulo the order only. */
  lemma {:induction false} TimesModOrder<G(!new)>(g: Group<G>, k: nat, ell: nat)
    requires Abelian(g) && ell > 0 && Times(g, ell, g.base) == g.zero
    ensures Times(g, k % ell, g.base) == Times(g, k, g.base)
    decreases k
  {
    hide Abelian, Times;
    if k >= ell {
      TimesModOrder(g, k - ell, ell);
      TimesAdd(g, k - ell, ell, g.base);
      Unit(g, Times(g, k - ell, g.base));
      AddMultiple(k - ell, 1, ell);
    }
  }

  /** What a side recovers from an honest peer's message: the peer's key times the base. */
  lemma Recovers<G(!new)>(g: Group<G>, key: nat, pwScalar: nat, mask: G)
    requires Abelian(g) && Ell() > 0 && Times(g, Ell(), g.base) == g.zero
    ensures var point := g.add(Times(g, key % Ell(), g.base), Times(g, pwScalar, mask));
            g.add(point, g.neg(Times(g, pwScalar, mask))) == Times(g, key, g.base)
  {
    hide Ell, Abelian, Times;
    Unmask(g, Times(g, key % Ell(), g.base), Times(g, pwScalar, mask));
    TimesModOrder(g, key, Ell());
  }

  /**
   Two honest sides with the same password and each other's names hash the same
   transcript, whatever their keys: both arrive at the same curve point.
   */
  lemma HonestSidesAgree<G(!new)>(g: Group<G>, aliceName: seq<byte>, bobName: seq<byte>, a: nat, b: nat,
                                  pwHash: seq<byte>, pwScalar: nat)
    requires Abelian(g) && Ell() > 0 && Times(g, Ell(), g.base) == g.zero
    requires forall p :: g.decompress(g.compress(p)) == Some(p)
    ensures var alice := New(g, Alice, aliceName, bobName, a, pwHash, pwScalar);
            var bob := New(g, Bob, bobName, aliceName, b, pwHash, pwScalar);
            && Transcript(g, alice, bob.msg).Some?
            && Transcript(g, alice, bob.msg) == Transcript(g, bob, alice.msg)
  {
    hide Ell, Times, Absorb, Abelian;
    Recovers(g, b, pwScalar, g.n);
    Recovers(g, a, pwScalar, g.m);
    TimesSwap(g, a, b, g.base);
  }
}
