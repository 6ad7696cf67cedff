/**
 SPAKE2 as BoringSSL runs it on edwards25519 (libadb/src/pairing/spake2.rs):
 the byte arithmetic on scalars, double-and-add in any abelian group, and the
 exchange of two honest sides.
 */
module Spake2 {
  import opened Prelude

  // ---- arithmetic ----

  lemma Distribute(a: int, b: int, p: int)
    ensures (a + b) * p == a * p + b * p
  {
  }

  lemma MulLe(a: int, b: int, p: nat)
    requires a <= b
    ensures a * p <= b * p
  {
    Distribute(a, b - a, p);
    assert (b - a) * p >= 0;
  }

  /** Quotient and remainder are the only way to split a number. */
  lemma ModIs(x: nat, q: nat, m: nat, total: nat)
    requires m > 0 && x < m && total == x + q * m
    ensures x == total % m
  {
    var d, r := total / m, total % m;
    assert total == d * m + r;
    Distribute(d, 1, m);
    Distribute(q, 1, m);
    if d < q { MulLe(d + 1, q, m); } else if q < d { MulLe(q + 1, d, m); }
  }

  // ---- little-endian numbers ----

  function Pow256(n: nat): (p: nat)
    ensures p > 0
  {
    if n == 0 then 1 else 256 * Pow256(n - 1)
  }

  /** The number a little-endian byte string spells. */
  function Number(b: seq<byte>): (n: nat) {
    if b == [] then 0 else var last: int := b[|b| - 1]; Number(b[..|b| - 1]) + last * Pow256(|b| - 1)
  }

  lemma NumberPush(b: seq<byte>, x: byte)
    ensures Number(b + [x]) == Number(b) + x * Pow256(|b|)
  {
    assert (b + [x])[..|b|] == b;
  }

  lemma {:induction false} NumberBelow(b: seq<byte>)
    ensures Number(b) < Pow256(|b|)
  {
    if b != [] {
      var n := |b| - 1;
      NumberBelow(b[..n]);
      MulLe(b[n], 255, Pow256(n));
    }
  }

  /** The same number, from its low end. */
  lemma {:induction false} NumberFront(b: seq<byte>)
    requires b != []
    ensures Number(b) == b[0] + 256 * Number(b[1..])
  {
    var n := |b| - 1;
    if n == 0 {
      assert b[..0] == [];
    } else {
      NumberFront(b[..n]);
      assert b[..n][1..] == b[1..][..n - 1];
      var last: int := b[n];
      assert last * (256 * Pow256(n - 1)) == 256 * (last * Pow256(n - 1));
    }
  }

  /** One column of an addition or a shift: what is kept and what is carried. */
  lemma Column(sum: nat, p: nat)
    ensures (sum % 256) * p + (sum / 256) * (256 * p) == sum * p
  {
    var lo, hi := sum % 256, sum / 256;
    assert sum == lo + hi * 256;
    Distribute(lo, hi * 256, p);
    assert (hi * 256) * p == hi * (256 * p);
  }

  /** One column of an addition. */
  lemma AddColumn(x: byte, y: byte, carry: nat, p: nat)
    requires carry <= 1
    ensures var sum := x + y + carry;
            sum / 256 <= 1 && (sum % 256) * p + (sum / 256) * (256 * p) == x * p + y * p + carry * p
  {
    var sum: nat := x + y + carry;
    Column(sum, p);
    Distribute(x + y, carry, p);
    Distribute(x, y, p);
  }

  /** `add_assign`: addition in place; the carry out of the last byte is lost. */
  method AddAssign(a: array<byte>, b: seq<byte>)
    requires a.Length == |b|
    modifies a
    ensures Number(a[..]) == (Number(old(a[..])) + Number(b)) % Pow256(|b|)
  {
    ghost var x := a[..];
    var carry: nat := 0;
    for i := 0 to a.Length
      invariant carry <= 1
      invariant a[i..] == x[i..]
      invariant Number(a[..i]) + carry * Pow256(i) == Number(x[..i]) + Number(b[..i])
    {
      assert x[..i + 1] == x[..i] + [x[i]] && b[..i + 1] == b[..i] + [b[i]];
      NumberPush(x[..i], x[i]);
      NumberPush(b[..i], b[i]);
      AddColumn(a[i], b[i], carry, Pow256(i));
      var sum: nat := a[i] + b[i] + carry;
      ghost var done := a[..i];
      a[i] := sum % 256;
      assert a[..i + 1] == done + [sum % 256];
      NumberPush(done, sum % 256);
      carry := sum / 256;
    }
    assert a[..a.Length] == a[..] && x[..a.Length] == x && b[..a.Length] == b;
    NumberBelow(a[..]);
    ModIs(Number(a[..]), carry, Pow256(|b|), Number(x) + Number(b));
  }

  /** `double_assign`. */
  method DoubleAssign(a: array<byte>)
    modifies a
    ensures Number(a[..]) == (2 * Number(old(a[..]))) % Pow256(a.Length)
  {
    var copy := a[..];
    AddAssign(a, copy);
  }

  /** A byte shifted by three, the carry below it: the low five bits stay, the high three are carried on. */
  lemma ShiftColumn(b: byte, carry: nat, p: nat)
    requires carry < 8
    ensures 0 <= (b * 8) % 256 + carry < 256 && b / 32 < 8
    ensures ((b * 8) % 256 + carry) * p + (b / 32) * (256 * p) == 8 * (b * p) + carry * p
  {
    var n: int := b;
    Column(n * 8, p);
    assert (n * 8) / 256 == n / 32 && (n * 8) % 256 == 8 * (n % 32);
    Distribute((n * 8) % 256, carry, p);
    assert (n * 8) * p == 8 * (n * p);
  }

  /** `left_shift_3`: eight times the number, less what is shifted out of the last byte. */
  method LeftShift3(a: array<byte>)
    modifies a
    ensures Number(a[..]) == (8 * Number(old(a[..]))) % Pow256(a.Length)
  {
    ghost var x := a[..];
    var carry: nat := 0;
    for i := 0 to a.Length
      invariant carry < 8
      invariant a[i..] == x[i..]
      invariant Number(a[..i]) + carry * Pow256(i) == 8 * Number(x[..i])
    {
      var b: int := a[i];
      assert x[..i + 1] == x[..i] + [x[i]];
      NumberPush(x[..i], x[i]);
      ShiftColumn(a[i], carry, Pow256(i));
      ghost var done := a[..i];
      var low := (b * 8) % 256 + carry;
      assert x[i + 1..] == x[i..][1..] == a[i + 1..];
      a[i] := low;
      assert a[..i + 1] == done + [low];
      NumberPush(done, low);
      carry := b / 32;
    }
    assert a[..a.Length] == a[..] && x[..a.Length] == x;
    NumberBelow(a[..]);
    ModIs(Number(a[..]), carry, Pow256(a.Length), 8 * Number(x));
  }

  // ---- scalars ----

  /** The order of the base point, 2^252 and a bit: the last byte is 16, the first odd. */
  function Order(): (b: seq<byte>)
    ensures |b| == 32 && b[0] == 0xed && b[31] == 0x10
  {
    [0xed, 0xd3, 0xf5, 0x5c, 0x1a, 0x63, 0x12, 0x58, 0xd6, 0x9c, 0xf7, 0xa2, 0xde, 0xf9, 0xde, 0x14,
     0, 0, 0, 0, 0, 0, 0, 0, 0, 0, 0, 0, 0, 0, 0, 0x10]
  }

  function Ell(): nat { Number(Order()) }

  /** A number with the order's first and last byte is odd, and eight times it still fits thirty-two bytes. */
  lemma EdgesFit(b: seq<byte>)
    requires |b| == 32 && b[0] == 0xed && b[31] == 0x10
    ensures Number(b) > 0 && Number(b) % 2 == 1 && 8 * Number(b) < Pow256(32)
  {
    hide Number, Pow256;
    NumberFront(b);
    NumberBelow(b[..31]);
    NumberTop(b);
    PowerUp();
    OddAbove(Number(b[1..]));
  }

  lemma NumberTop(b: seq<byte>)
    requires b != []
    ensures Number(b) == Number(b[..|b| - 1]) + b[|b| - 1] * Pow256(|b| - 1)
  {
  }

  lemma OddAbove(k: nat)
    ensures (0xed + 256 * k) % 2 == 1
  {
    assert 0xed + 256 * k == 2 * (118 + 128 * k) + 1;
  }

  lemma OrderFits()
    ensures Ell() > 0 && Ell() % 2 == 1 && 8 * Ell() < Pow256(32)
  {
    hide Order, Number, Pow256;
    EdgesFit(Order());
  }

  lemma PowerUp()
    ensures Pow256(32) == 256 * Pow256(31)
  {
  }

  /** A number as little-endian bytes. */
  function ToBytes(n: nat, len: nat): (b: seq<byte>)
    ensures |b| == len
    decreases len
  {
    if len == 0 then [] else [n % 256] + ToBytes(n / 256, len - 1)
  }

  lemma {:induction false} ToBytesIs(n: nat, len: nat)
    requires n < Pow256(len)
    ensures Number(ToBytes(n, len)) == n
    decreases len
  {
    if len > 0 {
      ToBytesIs(n / 256, len - 1);
      NumberFront(ToBytes(n, len));
      assert ToBytes(n, len)[1..] == ToBytes(n / 256, len - 1);
    }
  }

  /** `reduce_wide`: the scalar a 64-byte number reduces to. */
  function ReduceWide(wide: seq<byte>): (b: seq<byte>)
    ensures |b| == 32
  {
    OrderFits();
    ToBytes(Number(wide) % Ell(), 32)
  }

  lemma ReduceWideIs(wide: seq<byte>)
    ensures Ell() > 0 && Number(ReduceWide(wide)) == Number(wide) % Ell()
  {
    OrderFits();
    hide Ell, Number, Pow256;
    ToBytesIs(Number(wide) % Ell(), 32);
  }

  lemma AddMultiple(s: nat, k: nat, m: nat)
    requires m > 0
    ensures (s + k * m) % m == s % m
  {
    Distribute(s / m, k, m);
    ModIs(s % m, s / m + k, m, s + k * m);
  }

  /** The bit of weight `p` in the low byte is that bit of the number. */
  lemma LowBit(b: seq<byte>, p: nat)
    requires b != [] && p in {1, 2, 4}
    ensures (b[0] / p) % 2 == (Number(b) / p) % 2
  {
    NumberFront(b);
    hide Number;
    BitOf(b[0], Number(b[1..]), p);
  }

  lemma BitOf(x: byte, k: nat, p: nat)
    requires p in {1, 2, 4}
    ensures (x / p) % 2 == ((x + 256 * k) / p) % 2
  {
    if p == 1 {
      SameParity(x, 128 * k);
    } else if p == 2 {
      assert (x + 256 * k) / 2 == x / 2 + 128 * k;
      SameParity(x / 2, 64 * k);
    } else {
      assert (x + 256 * k) / 4 == x / 4 + 64 * k;
      SameParity(x / 4, 32 * k);
    }
  }

  lemma SameParity(x: nat, h: nat)
    ensures (x + 2 * h) % 2 == x % 2
  {
    assert x + 2 * h == 2 * (x / 2 + h) + x % 2;
  }

  function Weight(bit: nat): nat { if bit == 0 then 1 else if bit == 1 then 2 else if bit == 2 then 4 else 8 }

  /** The low `bit` bits are clear, with fewer than that many multiples of the order added. */
  predicate Cleared(bit: nat, s: nat, ell: nat) {
    match bit
    case 0 => s < ell
    case 1 => s % 2 == 0 && s < 2 * ell
    case 2 => s % 4 == 0 && s < 4 * ell
    case _ => s % 8 == 0 && s < 8 * ell
  }

  /** An odd multiple of a set bit clears it and leaves those below alone. */
  lemma ClearsBit(bit: nat, s: nat, ell: nat)
    requires bit < 3 && Cleared(bit, s, ell) && ell % 2 == 1
    ensures (s / Weight(bit)) % 2 == 1 ==> Cleared(bit + 1, s + Weight(bit) * ell, ell)
    ensures (s / Weight(bit)) % 2 == 0 ==> Cleared(bit + 1, s, ell)
  {
    match bit {
      case 0 => EvenSum(s, ell);
      case 1 => EvenSum(s / 2, ell); assert s == 2 * (s / 2);
      case 2 => EvenSum(s / 4, ell); assert s == 4 * (s / 4);
    }
  }

  /** Two odd numbers add up to an even one. */
  lemma EvenSum(q: nat, ell: nat)
    requires ell % 2 == 1
    ensures q % 2 == 1 ==> (q + ell) % 2 == 0 && (2 * q + 2 * ell) % 4 == 0 && (4 * q + 4 * ell) % 8 == 0
    ensures q % 2 == 0 ==> (2 * q) % 4 == 0 && (4 * q) % 8 == 0
  {
    var a, b := q / 2, ell / 2;
    assert ell == 2 * b + 1;
    if q % 2 == 1 {
      assert q == 2 * a + 1;
      Multiples(a + b + 1, q + ell);
    } else {
      assert q == 2 * a;
      Multiples(a, q);
    }
  }

  lemma Multiples(h: nat, n: nat)
    requires n == 2 * h
    ensures n % 2 == 0 && (2 * n) % 4 == 0 && (4 * n) % 8 == 0
  {
    assert 2 * n == 4 * h && 4 * n == 8 * h;
  }

  lemma Smaller(bit: nat, s: nat, ell: nat)
    requires bit < 3 && Cleared(bit, s, ell)
    ensures Weight(bit) * ell <= 4 * ell && s + Weight(bit) * ell <= 8 * ell
            && 2 * (Weight(bit) * ell) == Weight(bit + 1) * ell
  {
  }

  method Copied(bytes: seq<byte>) returns (a: array<byte>)
    ensures fresh(a) && a[..] == bytes
  {
    a := new byte[|bytes|](i requires 0 <= i < |bytes| => bytes[i]);
  }

  /**
   The private key of `Spake2::new`: eight times the random number's residue, exactly.
   The residue is below the order, so the shift loses no bit.
   */
  method PrivateKey(wide: seq<byte>) returns (key: array<byte>)
    requires |wide| == 64
    ensures fresh(key) && key.Length == 32 && Ell() > 0
    ensures Number(key[..]) == 8 * (Number(wide) % Ell())
  {
    OrderFits();
    ReduceWideIs(wide);
    key := Copied(ReduceWide(wide));
    hide Number, Ell, Pow256, ReduceWide;
    ghost var residue := Number(wide) % Ell();
    LeftShift3(key);
    ModIs(8 * residue, 0, Pow256(32), 8 * residue);
  }

  /**
   `password_scalar`: multiples of the order are added until the low three bits
   are clear. The result is the hash modulo the order, divisible by eight and
   below eight times the order, so no carry out of the last byte is ever lost.
   */
  method PasswordScalar(hash: seq<byte>) returns (scalar: array<byte>)
    requires |hash| == 64
    ensures fresh(scalar) && scalar.Length == 32 && Ell() > 0
    ensures Number(scalar[..]) % Ell() == Number(hash) % Ell()
    ensures Number(scalar[..]) % 8 == 0 && Number(scalar[..]) < 8 * Ell()
  {
    ReduceWideIs(hash);
    scalar := Copied(ReduceWide(hash));
    var order := Copied(Order());
    assert Number(order[..]) == Ell();
    hide Number, Ell, Pow256, Order, ReduceWide;
    ModTwice(Number(hash), Ell());
    for bit := 0 to 3
      invariant fresh(scalar) && fresh(order) && scalar != order && scalar.Length == order.Length == 32
      invariant bit < 3 ==> Number(order[..]) == Weight(bit) * Ell()
      invariant Number(scalar[..]) % Ell() == Number(hash) % Ell()
      invariant Cleared(bit, Number(scalar[..]), Ell())
    {
      ClearOne(scalar, order, bit);
    }
  }

  lemma ModTwice(n: nat, m: nat)
    requires m > 0
    ensures (n % m) % m == n % m
  {
  }

  /** One round: clear one bit, and double the order for the next. */
  method ClearOne(scalar: array<byte>, order: array<byte>, bit: nat)
    requires scalar.Length == order.Length == 32 && scalar != order && bit < 3
    requires Number(order[..]) == Weight(bit) * Ell() && Cleared(bit, Number(scalar[..]), Ell()) && Ell() > 0
    modifies scalar, order
    ensures Number(order[..]) == Weight(bit + 1) * Ell()
    ensures Number(scalar[..]) % Ell() == Number(old(scalar[..])) % Ell()
    ensures Cleared(bit + 1, Number(scalar[..]), Ell())
  {
    OrderFits();
    hide Number, Ell, Pow256, Cleared, Weight;
    ghost var s, multiple := Number(scalar[..]), Number(order[..]);
    Smaller(bit, s, Ell());
    ClearsBit(bit, s, Ell());
    AddMultiple(s, Weight(bit), Ell());
    WeightIs(bit);
    AddIfSet(scalar, order[..], Weight(bit));
    DoubleAssign(order);
    ModIs(2 * multiple, 0, Pow256(32), 2 * multiple);
  }

  /** Add `addend` where the bit of weight `p` is set, without a branch on it. */
  method AddIfSet(scalar: array<byte>, addend: seq<byte>, p: nat)
    requires scalar.Length == |addend| == 32 && p in {1, 2, 4} && Number(scalar[..]) + Number(addend) < Pow256(32)
    modifies scalar
    ensures var s := Number(old(scalar[..]));
            Number(scalar[..]) == if (s / p) % 2 == 1 then s + Number(addend) else s
  {
    hide Number, Pow256;
    ghost var s := Number(scalar[..]);
    LowBit(scalar[..], p);
    var low: int := scalar[0];
    ToBytesIs(0, 32);
    var masked := if (low / p) % 2 == 1 then addend else ToBytes(0, 32);
    AddAssign(scalar, masked);
    ModIs(s + Number(masked), 0, Pow256(32), s + Number(masked));
  }

  lemma WeightIs(bit: nat)
    requires bit < 3
    ensures Weight(bit) in {1, 2, 4}
  {
  }
}
