/**
 The CRC-guarded key record (libadb/src/keys/record.rs). The checksum is the
 CRC-32 of section 8 of RFC 1952.
 */
module KeyRecord {
  import opened Prelude

  const MAGIC: seq<bv8> := [0x41, 0x44, 0x42, 0x4B, 0x45, 0x59, 0x00, 0x02]
  const HEADER_LEN := 16

  // ---- the checksum ----

  /** One bit of the CRC, without a branch. */
  function Shift(crc: bv32): bv32 { (crc >> 1) ^ (0xEDB8_8320 & (0 - (crc & 1))) }

  function Shifts(crc: bv32, n: nat): bv32 { if n == 0 then crc else Shift(Shifts(crc, n - 1)) }

  function Xor(a: bv32, b: bv32): bv32 { a ^ b }

  function Absorb(crc: bv32, b: bv8): bv32 { Shifts(Xor(crc, b as bv32), 8) }

  function Run(crc: bv32, bytes: seq<bv8>): bv32 {
    if bytes == [] then crc else Absorb(Run(crc, bytes[..|bytes| - 1]), bytes[|bytes| - 1])
  }

  function Crc(bytes: seq<bv8>): bv32 { !Run(0xFFFF_FFFF, bytes) }

  /** `crc32`: a loop over the bytes, and one over the bits of each. */
  method Crc32(bytes: seq<bv8>) returns (sum: bv32)
    ensures sum == Crc(bytes)
  {
    var crc: bv32 := 0xFFFF_FFFF;
    for i := 0 to |bytes|
      invariant crc == Run(0xFFFF_FFFF, bytes[..i])
    {
      RunPush(0xFFFF_FFFF, bytes, i);
      crc := AbsorbByte(crc, bytes[i]);
    }
    assert bytes[..|bytes|] == bytes;
    sum := !crc;
  }

  lemma RunPush(crc: bv32, bytes: seq<bv8>, i: nat)
    requires i < |bytes|
    ensures Run(crc, bytes[..i + 1]) == Absorb(Run(crc, bytes[..i]), bytes[i])
  {
    hide Absorb;
    assert bytes[..i + 1][..i] == bytes[..i];
  }

  method AbsorbByte(before: bv32, b: bv8) returns (crc: bv32)
    ensures crc == Absorb(before, b)
  {
    crc := before ^ (b as bv32);
    assert crc == Xor(before, b as bv32);
    ghost var start := crc;
    hide Xor;
    for bit := 0 to 8
      invariant crc == Shifts(start, bit)
    {
      crc := ShiftOnce(crc);
    }
  }

  method ShiftOnce(crc: bv32) returns (next: bv32)
    ensures next == Shift(crc)
  {
    var mask: bv32 := 0 - (crc & 1);
    next := (crc >> 1) ^ (0xEDB8_8320 & mask);
  }

  // ---- it is linear and injective ----

  lemma OddOrEven(c: bv32)
    ensures c & 1 == 0 || c & 1 == 1
  {
  }

  lemma Parity(x: bv32, y: bv32)
    ensures (x ^ y) & 1 == (x & 1) ^ (y & 1) && (x ^ y) >> 1 == (x >> 1) ^ (y >> 1)
  {
  }

  lemma MaskOf(bit: bv32)
    requires bit == 0 || bit == 1
    ensures bit == 0 ==> 0xEDB8_8320 & (0 - bit) == 0
    ensures bit == 1 ==> 0xEDB8_8320 & (0 - bit) == 0xEDB8_8320
  {
    if bit == 0 { assert (0 as bv32) - 0 == 0; } else { assert (0 as bv32) - 1 == 0xFFFF_FFFF; }
  }

  lemma ShiftEven(c: bv32)
    requires c & 1 == 0
    ensures Shift(c) == c >> 1
  {
    MaskOf(c & 1);
  }

  lemma ShiftOdd(c: bv32)
    requires c & 1 == 1
    ensures Shift(c) == (c >> 1) ^ 0xEDB8_8320
  {
    MaskOf(c & 1);
  }

  lemma Regroup(a: bv32, b: bv32, p: bv32)
    ensures (a ^ b) ^ p == (a ^ p) ^ b && (a ^ b) ^ p == a ^ (b ^ p) && a ^ b == (a ^ p) ^ (b ^ p)
  {
  }

  /** The step is linear over exclusive or. */
  lemma ShiftLinear(x: bv32, y: bv32)
    ensures Shift(Xor(x, y)) == Xor(Shift(x), Shift(y))
  {
    hide Shift;
    ShiftsApart(x, y);
  }

  lemma ShiftsApart(x: bv32, y: bv32)
    ensures Shift(x ^ y) == Shift(x) ^ Shift(y)
  {
    hide Shift;
    OddOrEven(x);
    OddOrEven(y);
    Parity(x, y);
    Regroup(x >> 1, y >> 1, 0xEDB8_8320);
    if x & 1 == 0 {
      ShiftEven(x);
      if y & 1 == 0 { ShiftEven(y); ShiftEven(x ^ y); } else { ShiftOdd(y); ShiftOdd(x ^ y); }
    } else {
      ShiftOdd(x);
      if y & 1 == 0 { ShiftEven(y); ShiftOdd(x ^ y); } else { ShiftOdd(y); ShiftEven(x ^ y); }
    }
  }

  lemma {:induction false} ShiftsLinear(x: bv32, y: bv32, n: nat)
    ensures Shifts(Xor(x, y), n) == Xor(Shifts(x, n), Shifts(y, n))
  {
    hide Shift, Xor;
    if n > 0 {
      ShiftsLinear(x, y, n - 1);
      ShiftLinear(Shifts(x, n - 1), Shifts(y, n - 1));
    }
  }

  /** The step undone: the top bit tells whether the polynomial went in. */
  function Unshift(c: bv32): bv32 { if c & 0x8000_0000 != 0 then ((c ^ 0xEDB8_8320) << 1) | 1 else c << 1 }

  lemma UnshiftInverts(x: bv32)
    ensures Unshift(Shift(x)) == x
  {
  }

  lemma {:induction false} ShiftsInjective(x: bv32, y: bv32, n: nat)
    requires x != y
    ensures Shifts(x, n) != Shifts(y, n)
  {
    hide Shift, Unshift;
    if n > 0 {
      ShiftsInjective(x, y, n - 1);
      UnshiftInverts(Shifts(x, n - 1));
      UnshiftInverts(Shifts(y, n - 1));
    }
  }

  lemma XorInjective(x: bv32, y: bv32, z: bv32)
    requires x != y
    ensures Xor(x, z) != Xor(y, z) && Xor(z, x) != Xor(z, y)
  {
  }

  lemma {:induction false} ShiftsTwice(x: bv32, a: nat, b: nat)
    ensures Shifts(Shifts(x, a), b) == Shifts(x, a + b)
  {
    if b > 0 { ShiftsTwice(x, a, b - 1); }
  }

  lemma SameByteKeepsApart(x: bv32, y: bv32, b: bv8)
    requires x != y
    ensures Absorb(x, b) != Absorb(y, b)
  {
    hide Xor, Shifts;
    XorInjective(x, y, b as bv32);
    ShiftsInjective(Xor(x, b as bv32), Xor(y, b as bv32), 8);
  }

  /** The same bytes keep different states different. */
  lemma {:induction false} SameBytesKeepApart(x: bv32, y: bv32, bytes: seq<bv8>)
    requires x != y
    ensures Run(x, bytes) != Run(y, bytes)
  {
    hide Absorb;
    if bytes != [] {
      var n := |bytes| - 1;
      SameBytesKeepApart(x, y, bytes[..n]);
      SameByteKeepsApart(Run(x, bytes[..n]), Run(y, bytes[..n]), bytes[n]);
    }
  }

  lemma {:induction false} RunJoins(crc: bv32, a: seq<bv8>, b: seq<bv8>)
    ensures Run(crc, a + b) == Run(Run(crc, a), b)
  {
    hide Absorb;
    if b == [] {
      assert a + b == a;
    } else {
      RunJoins(crc, a, b[..|b| - 1]);
      assert (a + b)[..|a + b| - 1] == a + b[..|b| - 1];
    }
  }

  // ---- a window of four bytes ----

  /** A byte in place `k` of a word. */
  function Place(b: bv8, k: nat): bv32 {
    var x := b as bv32;
    if k == 0 then x else if k == 1 then x << 8 else if k == 2 then x << 16 else x << 24
  }

  /** Up to four bytes as one word, the first in its low byte. */
  function Word(w: seq<bv8>): bv32
    requires |w| <= 4
  {
    if w == [] then 0 else Xor(Word(w[..|w| - 1]), Place(w[|w| - 1], |w| - 1))
  }

  lemma EightShifts(x: bv32)
    ensures Shifts(x, 8) == Shift(Shift(Shift(Shift(Shift(Shift(Shift(Shift(x))))))))
  {
    hide Shift;
    assert Shifts(x, 8) == Shift(Shifts(x, 7)) && Shifts(x, 7) == Shift(Shifts(x, 6))
           && Shifts(x, 6) == Shift(Shifts(x, 5));
    assert Shifts(x, 5) == Shift(Shifts(x, 4)) && Shifts(x, 4) == Shift(Shifts(x, 3))
           && Shifts(x, 3) == Shift(Shifts(x, 2));
    assert Shifts(x, 2) == Shift(Shifts(x, 1)) && Shifts(x, 1) == Shift(x);
  }

  lemma DownOne(b: bv8)
    ensures Shift(Shift(Shift(Shift(Shift(Shift(Shift(Shift((b as bv32) << 8)))))))) == b as bv32
    ensures Shift(Shift(Shift(Shift(Shift(Shift(Shift(Shift((b as bv32) << 16)))))))) == (b as bv32) << 8
    ensures Shift(Shift(Shift(Shift(Shift(Shift(Shift(Shift((b as bv32) << 24)))))))) == (b as bv32) << 16
  {
  }

  /** A byte with nothing below it is shifted down unchanged. */
  lemma ShiftedDown(b: bv8, k: nat)
    requires 0 < k <= 3
    ensures Shifts(Place(b, k), 8) == Place(b, k - 1)
  {
    EightShifts(Place(b, k));
    DownOne(b);
    hide Shift, Shifts;
  }

  /** The byte in place `k` of a word comes down to place 0 after `8 * k` shifts. */
  lemma {:induction false} ComesDown(b: bv8, k: nat)
    requires k <= 3
    ensures Shifts(Place(b, k), 8 * k) == b as bv32
  {
    if k == 0 {
      assert Place(b, 0) == b as bv32;
    } else {
      hide Place, Shift;
      ShiftedDown(b, k);
      ComesDown(b, k - 1);
      ShiftsTwice(Place(b, k), 8, 8 * (k - 1));
    }
  }

  /** Up to four bytes in a row are absorbed like one word. */
  lemma {:induction false} RunWord(crc: bv32, w: seq<bv8>)
    requires |w| <= 4
    ensures Run(crc, w) == Shifts(Xor(crc, Word(w)), 8 * |w|)
  {
    if w == [] {
      XorZero(crc);
    } else {
      hide Shift, Xor, Place;
      var k := |w| - 1;
      var b := w[k];
      RunWord(crc, w[..k]);
      var high := Place(b, k);
      var before := Xor(crc, Word(w[..k]));
      ComesDown(b, k);
      ShiftsLinear(before, high, 8 * k);
      ShiftsTwice(Xor(before, high), 8 * k, 8);
      XorAssoc(crc, Word(w[..k]), high);
      hide Shifts;
    }
  }

  lemma XorZero(a: bv32)
    ensures Xor(a, 0) == a && Xor(0, a) == a
  {
  }

  lemma XorAssoc(a: bv32, b: bv32, c: bv32)
    ensures Xor(Xor(a, b), c) == Xor(a, Xor(b, c))
  {
  }

  function Full(a: bv8, b: bv8, c: bv8, d: bv8): bv32 {
    Xor(Xor(Xor(Place(a, 0), Place(b, 1)), Place(c, 2)), Place(d, 3))
  }

  function Packed(a: bv8, b: bv8, c: bv8, d: bv8): bv32 {
    ((((a as bv32) ^ ((b as bv32) << 8)) ^ ((c as bv32) << 16)) ^ ((d as bv32) << 24))
  }

  lemma FullIsPacked(a: bv8, b: bv8, c: bv8, d: bv8)
    ensures Full(a, b, c, d) == Packed(a, b, c, d)
  {
  }

  lemma PackedInjective(a: bv8, b: bv8, c: bv8, d: bv8, a': bv8, b': bv8, c': bv8, d': bv8)
    requires Packed(a, b, c, d) == Packed(a', b', c', d')
    ensures a == a' && b == b' && c == c' && d == d'
  {
  }

  lemma FullInjective(a: bv8, b: bv8, c: bv8, d: bv8, a': bv8, b': bv8, c': bv8, d': bv8)
    requires Full(a, b, c, d) == Full(a', b', c', d')
    ensures a == a' && b == b' && c == c' && d == d'
  {
    hide Full, Packed;
    FullIsPacked(a, b, c, d);
    FullIsPacked(a', b', c', d');
    PackedInjective(a, b, c, d, a', b', c', d');
  }

  function At(w: seq<bv8>, i: nat): bv8 { if i < |w| then w[i] else 0 }

  lemma {:induction false} WordIs(w: seq<bv8>)
    requires |w| <= 4
    ensures Word(w) == Full(At(w, 0), At(w, 1), At(w, 2), At(w, 3))
  {
    hide Full, Place, Xor;
    var k := |w|;
    if k > 0 {
      var v := w[..k - 1];
      WordIs(v);
      FullGrows(At(v, 0), At(v, 1), At(v, 2), w[k - 1]);
    } else {
      NoBytes();
    }
  }

  lemma NoBytes()
    ensures Full(0, 0, 0, 0) == 0
  {
    PlaceZero();
    XorZero(0);
  }

  lemma FullGrows(a: bv8, b: bv8, c: bv8, x: bv8)
    ensures Xor(Full(0, 0, 0, 0), Place(x, 0)) == Full(x, 0, 0, 0)
    ensures Xor(Full(a, 0, 0, 0), Place(x, 1)) == Full(a, x, 0, 0)
    ensures Xor(Full(a, b, 0, 0), Place(x, 2)) == Full(a, b, x, 0)
    ensures Xor(Full(a, b, c, 0), Place(x, 3)) == Full(a, b, c, x)
  {
    PlaceZero();
    hide Place, Xor;
    XorZero(0);
    XorZero(Place(a, 0));
    XorZero(Xor(Place(a, 0), Place(b, 1)));
    XorZero(Xor(Xor(Place(a, 0), Place(b, 1)), Place(c, 2)));
    XorZero(Place(x, 0));
    XorZero(Xor(Place(a, 0), Place(x, 1)));
    XorZero(Xor(Xor(Place(a, 0), Place(b, 1)), Place(x, 2)));
  }

  lemma PlaceZero()
    ensures Place(0, 0) == 0 && Place(0, 1) == 0 && Place(0, 2) == 0 && Place(0, 3) == 0
  {
  }

  /** Two different runs of up to four bytes leave different states. */
  lemma WindowKeepsApart(crc: bv32, w: seq<bv8>, w': seq<bv8>)
    requires |w| == |w'| <= 4 && w != w'
    ensures Run(crc, w) != Run(crc, w')
  {
    hide Run, Shifts, Xor, Full, Word;
    RunWord(crc, w);
    RunWord(crc, w');
    WordIs(w);
    WordIs(w');
    if Word(w) == Word(w') {
      FullInjective(At(w, 0), At(w, 1), At(w, 2), At(w, 3), At(w', 0), At(w', 1), At(w', 2), At(w', 3));
      assert forall i :: 0 <= i < |w| ==> w[i] == At(w, i) == At(w', i) == w'[i];
      assert false;
    }
    XorInjective(Word(w), Word(w'), crc);
    ShiftsInjective(Xor(crc, Word(w)), Xor(crc, Word(w')), 8 * |w|);
  }

  // ---- a window of 32 bits across five bytes ----

  /** The bits below some bit of a byte. */
  predicate LowBits(m: bv8) { m & (m + 1) == 0 }

  /**
   Bytes are sent low bit first, so 32 bits in a row that begin in the middle of
   a byte are its high bits, three bytes, and the low bits of a fifth.
   */
  predicate BitWindow(w: seq<bv8>, w': seq<bv8>, m: bv8) {
    |w| == |w'| == 5 && LowBits(m) && (w[0] ^ w'[0]) & m == 0 && (w[4] ^ w'[4]) & !m == 0
  }

  /** A change of the high bits of a word never shifts down to a change of just the low bits of the next byte. */
  lemma TopBurst(u: bv32, d: bv8, m: bv8)
    requires LowBits(m) && u & (m as bv32) == 0 && d & !m == 0
    requires Shift(Shift(Shift(Shift(Shift(Shift(Shift(Shift(u)))))))) == (d as bv32) << 24
    ensures u == 0 && d == 0
  {
  }

  lemma ByteBurst(u: bv32, d: bv8, m: bv8)
    requires LowBits(m) && u & (m as bv32) == 0 && d & !m == 0 && (u != 0 || d != 0)
    ensures Shifts(u, 32) != d as bv32
  {
    EightShifts(u);
    if Shifts(u, 8) == Place(d, 3) { TopBurst(u, d, m); }
    hide Shift, Place;
    ComesDown(d, 3);
    ShiftsTwice(u, 8, 24);
    hide Shifts;
    ShiftsInjective(Shifts(u, 8), Place(d, 3), 24);
  }

  lemma PackedApart(a: bv8, b: bv8, c: bv8, d: bv8, a': bv8, b': bv8, c': bv8, d': bv8, m: bv8)
    requires (a ^ a') & m == 0
    ensures Xor(Packed(a, b, c, d), Packed(a', b', c', d')) & (m as bv32) == 0
    ensures Xor(Packed(a, b, c, d), Packed(a', b', c', d')) == 0 ==> a == a' && b == b' && c == c' && d == d'
  {
  }

  /** Two words of four bytes: what sets them apart. */
  lemma WordsApart(v: seq<bv8>, v': seq<bv8>, m: bv8)
    requires |v| == |v'| == 4 && (v[0] ^ v'[0]) & m == 0
    ensures Xor(Word(v), Word(v')) & (m as bv32) == 0 && (Xor(Word(v), Word(v')) == 0 ==> v == v')
  {
    hide Word, Full, Packed, Xor;
    WordIs(v);
    WordIs(v');
    FullIsPacked(v[0], v[1], v[2], v[3]);
    FullIsPacked(v'[0], v'[1], v'[2], v'[3]);
    PackedApart(v[0], v[1], v[2], v[3], v'[0], v'[1], v'[2], v'[3], m);
  }

  lemma XorSelf(a: bv32, b: bv32)
    ensures Xor(a, a) == 0 && Xor(a, b) == Xor(b, a)
  {
  }

  lemma XorCancels(c: bv32, a: bv32, b: bv32)
    ensures Xor(Xor(c, a), Xor(c, b)) == Xor(a, b)
  {
    hide Xor;
    XorSelf(c, a);
    XorAssoc(a, c, Xor(c, b));
    XorAssoc(c, c, b);
    XorZero(b);
  }

  /** The states after four bytes differ by what the bytes do. */
  lemma StatesApart(crc: bv32, v: seq<bv8>, v': seq<bv8>)
    requires |v| == |v'| == 4
    ensures Xor(Run(crc, v), Run(crc, v')) == Shifts(Xor(Word(v), Word(v')), 32)
  {
    hide Run, Xor, Shifts, Word;
    RunWord(crc, v);
    RunWord(crc, v');
    XorCancels(crc, Word(v), Word(v'));
    ShiftsLinear(Xor(crc, Word(v)), Xor(crc, Word(v')), 32);
  }

  lemma BytesApart(x: bv32, y: bv32, b: bv8, b': bv8)
    requires Xor(x, y) != (b ^ b') as bv32
    ensures Xor(x, b as bv32) != Xor(y, b' as bv32)
  {
  }

  lemma ByteDiffers(b: bv8, b': bv8)
    ensures b ^ b' == 0 <==> b == b'
  {
  }

  lemma LastByteApart(x: bv32, y: bv32, b: bv8, b': bv8)
    requires Xor(x, y) != (b ^ b') as bv32
    ensures Absorb(x, b) != Absorb(y, b')
  {
    hide Xor, Shifts;
    BytesApart(x, y, b, b');
    ShiftsInjective(Xor(x, b as bv32), Xor(y, b' as bv32), 8);
  }

  lemma RunLast(crc: bv32, w: seq<bv8>)
    requires |w| == 5
    ensures Run(crc, w) == Absorb(Run(crc, w[..4]), w[4])
  {
    hide Absorb;
  }

  lemma SameUnless(w: seq<bv8>, w': seq<bv8>)
    requires |w| == |w'| == 5 && w[..4] == w'[..4] && w[4] == w'[4]
    ensures w == w'
  {
    assert w == w[..4] + [w[4]] && w' == w'[..4] + [w'[4]];
  }

  /** Two runs of five bytes that differ within 32 bits in a row leave different states. */
  lemma BitWindowKeepsApart(crc: bv32, w: seq<bv8>, w': seq<bv8>, m: bv8)
    requires BitWindow(w, w', m) && w != w'
    ensures Run(crc, w) != Run(crc, w')
  {
    hide Run, Xor, Shifts, Word, LowBits, Absorb;
    var v, v' := w[..4], w'[..4];
    var d := w[4] ^ w'[4];
    RunLast(crc, w);
    RunLast(crc, w');
    WordsApart(v, v', m);
    ByteDiffers(w[4], w'[4]);
    if v == v' && w[4] == w'[4] { SameUnless(w, w'); }
    ByteBurst(Xor(Word(v), Word(v')), d, m);
    StatesApart(crc, v, v');
    LastByteApart(Run(crc, v), Run(crc, v'), w[4], w'[4]);
  }

  /** Bytes that differ within 32 bits in a row, wherever those begin, have different checksums. */
  lemma BurstDetected(front: seq<bv8>, w: seq<bv8>, w': seq<bv8>, m: bv8, back: seq<bv8>)
    requires (|w| == |w'| <= 4 || BitWindow(w, w', m)) && w != w'
    ensures Crc(front + w + back) != Crc(front + w' + back)
  {
    hide Run;
    var start: bv32 := 0xFFFF_FFFF;
    RunJoins(start, front, w);
    RunJoins(start, front, w');
    RunJoins(start, front + w, back);
    RunJoins(start, front + w', back);
    if |w| <= 4 {
      WindowKeepsApart(Run(start, front), w, w');
    } else {
      BitWindowKeepsApart(Run(start, front), w, w', m);
    }
    SameBytesKeepApart(Run(start, front + w), Run(start, front + w'), back);
    NotInjective(Run(start, front + w + back), Run(start, front + w' + back));
  }

  lemma NotInjective(x: bv32, y: bv32)
    requires x != y
    ensures !x != !y
  {
  }

  // ---- the record ----

  function WordBytes(x: bv32): (b: seq<bv8>)
    ensures |b| == 4
  {
    [(x & 0xFF) as bv8, ((x >> 8) & 0xFF) as bv8, ((x >> 16) & 0xFF) as bv8, ((x >> 24) & 0xFF) as bv8]
  }

  function WordOf(b: seq<bv8>): bv32
    requires |b| == 4
  {
    Packed(b[0], b[1], b[2], b[3])
  }

  lemma WordRoundTrip(x: bv32)
    ensures WordOf(WordBytes(x)) == x
  {
  }

  /** A byte's bits, and its value, bit by bit. */
  function Bits(v: byte): bv8 {
    (if v % 2 == 1 then 1 else 0) | (if (v / 2) % 2 == 1 then 2 else 0) | (if (v / 4) % 2 == 1 then 4 else 0)
    | (if (v / 8) % 2 == 1 then 8 else 0) | (if (v / 16) % 2 == 1 then 16 else 0)
    | (if (v / 32) % 2 == 1 then 32 else 0)
    | (if (v / 64) % 2 == 1 then 64 else 0) | (if (v / 128) % 2 == 1 then 128 else 0)
  }

  function One(bit: bool, weight: nat): nat { if bit then weight else 0 }

  function Sum8(b0: bool, b1: bool, b2: bool, b3: bool, b4: bool, b5: bool, b6: bool, b7: bool): (v: byte) {
    One(b0, 1) + One(b1, 2) + One(b2, 4) + One(b3, 8) + One(b4, 16) + One(b5, 32) + One(b6, 64) + One(b7, 128)
  }

  function Value(b: bv8): byte {
    Sum8(b & 1 != 0, b & 2 != 0, b & 4 != 0, b & 8 != 0, b & 16 != 0, b & 32 != 0, b & 64 != 0, b & 128 != 0)
  }

  lemma BitsAre(v: byte)
    ensures var b := Bits(v);
            && (b & 1 != 0 <==> v % 2 == 1) && (b & 2 != 0 <==> (v / 2) % 2 == 1)
            && (b & 4 != 0 <==> (v / 4) % 2 == 1) && (b & 8 != 0 <==> (v / 8) % 2 == 1)
            && (b & 16 != 0 <==> (v / 16) % 2 == 1) && (b & 32 != 0 <==> (v / 32) % 2 == 1)
            && (b & 64 != 0 <==> (v / 64) % 2 == 1) && (b & 128 != 0 <==> (v / 128) % 2 == 1)
  {
  }

  lemma ByteRoundTrip(v: byte)
    ensures Value(Bits(v)) == v
  {
    BitsAre(v);
    hide Bits, Sum8;
    SumIs(v);
  }

  lemma SumIs(v: byte)
    ensures Sum8(v % 2 == 1, (v / 2) % 2 == 1, (v / 4) % 2 == 1, (v / 8) % 2 == 1, (v / 16) % 2 == 1,
                 (v / 32) % 2 == 1, (v / 64) % 2 == 1, (v / 128) % 2 == 1) == v
  {
    EightBits(v);
    BitIs(v, 1);
    BitIs(v / 2, 2);
    BitIs(v / 4, 4);
    BitIs(v / 8, 8);
    BitIs(v / 16, 16);
    BitIs(v / 32, 32);
    BitIs(v / 64, 64);
    BitIs(v / 128, 128);
    hide One;
  }

  lemma BitIs(x: nat, weight: nat)
    ensures One(x % 2 == 1, weight) == weight * (x % 2)
  {
  }

  lemma EightBits(n: byte)
    ensures n == n % 2 + 2 * ((n / 2) % 2) + 4 * ((n / 4) % 2) + 8 * ((n / 8) % 2) + 16 * ((n / 16) % 2)
                 + 32 * ((n / 32) % 2) + 64 * ((n / 64) % 2) + 128 * ((n / 128) % 2)
  {
    var x: int := n;
    OneBit(x, x / 2);
    assert x / 4 == (x / 2) / 2 && x / 8 == (x / 4) / 2 && x / 16 == (x / 8) / 2;
    assert x / 32 == (x / 16) / 2 && x / 64 == (x / 32) / 2 && x / 128 == (x / 64) / 2;
    OneBit(x / 2, x / 4);
    OneBit(x / 4, x / 8);
    OneBit(x / 8, x / 16);
    OneBit(x / 16, x / 32);
    OneBit(x / 32, x / 64);
    OneBit(x / 64, x / 128);
    assert (x / 128) % 2 == x / 128;
  }

  lemma OneBit(x: int, half: int)
    requires half == x / 2
    ensures x == 2 * half + x % 2
  {
  }

  function LengthBytes(n: nat): (b: seq<bv8>)
    requires n < 0x1_0000_0000
    ensures |b| == 4
  {
    var le := U32ToLe(n);
    [Bits(le[0]), Bits(le[1]), Bits(le[2]), Bits(le[3])]
  }

  function LengthOf(b: seq<bv8>): nat
    requires |b| == 4
  {
    U32Le([Value(b[0]), Value(b[1]), Value(b[2]), Value(b[3])])
  }

  lemma LengthRoundTrip(n: nat)
    requires n < 0x1_0000_0000
    ensures LengthOf(LengthBytes(n)) == n
  {
    hide U32Le, Bits, Value;
    var le := U32ToLe(n);
    ByteRoundTrip(le[0]);
    ByteRoundTrip(le[1]);
    ByteRoundTrip(le[2]);
    ByteRoundTrip(le[3]);
    assert le == [le[0], le[1], le[2], le[3]];
  }

  /** `encode_key_record`. `None`: longer than the length field can say. */
  function Encode(der: seq<bv8>): (r: Option<seq<bv8>>)
    ensures r.None? <==> |der| >= 0x1_0000_0000
  {
    if |der| >= 0x1_0000_0000 then None
    else Some(MAGIC + LengthBytes(|der|) + WordBytes(Crc(der)) + der)
  }

  /** `decode_key_record`. */
  function Decode(bytes: seq<bv8>): Option<seq<bv8>> {
    if |bytes| < HEADER_LEN || bytes[..8] != MAGIC then None
    else
      var len, want := LengthOf(bytes[8..12]), WordOf(bytes[12..16]);
      if |bytes| - HEADER_LEN < len then None
      else
        var der := bytes[HEADER_LEN..HEADER_LEN + len];
        if Crc(der) == want then Some(der) else None
  }

  /** A record whose payload is `der` but whose header was made for `original`: what `decode` finds. */
  lemma DecodesTo(der: seq<bv8>, original: seq<bv8>, tail: seq<bv8>)
    requires |der| == |original| < 0x1_0000_0000
    ensures Decode(MAGIC + LengthBytes(|original|) + WordBytes(Crc(original)) + der + tail)
            == if Crc(der) == Crc(original) then Some(der) else None
  {
    hide LengthBytes, WordBytes, LengthOf, WordOf, Crc;
    var bytes := MAGIC + LengthBytes(|original|) + WordBytes(Crc(original)) + der + tail;
    assert bytes[..8] == MAGIC && bytes[8..12] == LengthBytes(|original|) && bytes[12..16] == WordBytes(Crc(original));
    LengthRoundTrip(|original|);
    WordRoundTrip(Crc(original));
    assert bytes[HEADER_LEN..HEADER_LEN + |der|] == der;
  }

  /** Decoding gives back the key, whatever follows the record on the medium. */
  lemma DecodeInvertsEncode(der: seq<bv8>, tail: seq<bv8>)
    requires |der| < 0x1_0000_0000
    ensures Decode(Encode(der).value + tail) == Some(der)
  {
    hide Decode, Crc;
    DecodesTo(der, der, tail);
  }

  /** A payload changed within any 32 bits in a row is never taken for a key. */
  lemma CorruptionDetected(front: seq<bv8>, w: seq<bv8>, w': seq<bv8>, m: bv8, back: seq<bv8>, tail: seq<bv8>)
    requires |front + w + back| < 0x1_0000_0000 && (|w| == |w'| <= 4 || BitWindow(w, w', m)) && w != w'
    ensures var record := Encode(front + w + back).value;
            Decode(record[..HEADER_LEN] + (front + w' + back) + tail) == None
  {
    hide Decode, Crc, WordBytes, LengthBytes;
    var der, der' := front + w + back, front + w' + back;
    BurstDetected(front, w, w', m, back);
    DecodesTo(der', der, tail);
    assert Encode(der).value[..HEADER_LEN] == MAGIC + LengthBytes(|der|) + WordBytes(Crc(der));
  }
}
