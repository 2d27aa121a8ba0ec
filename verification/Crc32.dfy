/** The reflected CRC-32 of IEEE 802.3, section 3.2.9, as the firmware computes it: no initial and
    no final inversion.

    The loops run on 32-bit words. What they compute is stated on polynomials over GF(2), read off a
    word from its LEAST significant bit, the coefficient of the HIGHEST power: that is what
    "reflected" means. */
module Crc32 {

  const CRC_POLY: bv32 := 0xedb88320

  // A polynomial over GF(2): coefficients, highest power first.
  type Poly = seq<bool>

  // x^26 + x^23 + x^22 + x^16 + x^12 + x^11 + x^10 + x^8 + x^7 + x^5 + x^4 + x^2 + x + 1: the
  // generator of the standard without its leading x^32, in 32 coefficients.
  const GENERATOR_TAIL: Poly := [
    false, false, false, false, false, true, false, false,
    true, true, false, false, false, false, false, true,
    false, false, false, true, true, true, false, true,
    true, false, true, true, false, true, true, true]

  function Bit(i: nat): bv32
    requires i < 32
  {
    if i == 0 then 1 else Bit(i - 1) << 1
  }

  predicate BitSet(c: bv32, i: nat)
    requires i < 32
  {
    c & Bit(i) != 0
  }

  // A register, and a byte of the message, as coefficients.
  function WordPoly(c: bv32): (p: Poly)
    ensures |p| == 32
  {
    seq(32, i requires 0 <= i < 32 => BitSet(c, i))
  }

  function BytePoly(b: bv8): (p: Poly)
    ensures |p| == 8
  {
    WordPoly(b as bv32)[..8]
  }

  function MessagePoly(data: seq<bv8>): (p: Poly)
    ensures |p| == 8 * |data|
  {
    if data == [] then [] else BytePoly(data[0]) + MessagePoly(data[1..])
  }

  // Adds q to the leading coefficients of p.
  function AddFront(p: Poly, q: Poly): (r: Poly)
    requires |q| <= |p|
    ensures |r| == |p|
  {
    seq(|p|, i requires 0 <= i < |p| => if i < |q| then p[i] != q[i] else p[i])
  }

  function Zeros(n: nat): (p: Poly)
    ensures |p| == n
  {
    seq(n, i => false)
  }

  // ---------------------------------------------------------------------------
  // What the loops do to the register, on coefficients
  // ---------------------------------------------------------------------------

  type Register = r: Poly | |r| == 32 witness Zeros(32)

  function BitStep(r: Register): Register {
    var shifted := r[1..] + [false];
    if r[0] then AddFront(shifted, GENERATOR_TAIL) else shifted
  }

  function BitSteps(r: Register, n: nat): Register
    decreases n
  {
    if n == 0 then r else BitSteps(BitStep(r), n - 1)
  }

  // The whole message: a byte folded into the register, then eight bit steps.
  function Crc(r: Register, data: seq<bv8>): Register
    decreases |data|
  {
    if data == [] then r else Crc(BitSteps(AddFront(r, BytePoly(data[0])), 8), data[1..])
  }

  // ---------------------------------------------------------------------------
  // Words against coefficients, one bit at a time
  // ---------------------------------------------------------------------------

  lemma XorAt(a: bv32, b: bv32, m: bv32)
    requires m & (m - 1) == 0
    ensures ((a ^ b) & m != 0) <==> ((a & m != 0) != (b & m != 0))
  {}

  lemma ShiftAt(a: bv32, s: bv32, m: bv32, next: bv32)
    requires s == a >> 1 && next == m << 1
    ensures s & m != 0 <==> a & next != 0
  {}

  lemma LowBit(a: bv32)
    ensures a & 1 != 0 <==> a & 1 == 1
    ensures a & 0 == 0
  {}

  lemma NextBit(m: bv32)
    requires m & (m - 1) == 0
    ensures (m << 1) & ((m << 1) - 1) == 0
    ensures m & 0xff == 0 ==> (m << 1) & 0xff == 0
  {}

  lemma ByteAt(b: bv8, m: bv32)
    requires m & 0xff == 0
    ensures (b as bv32) & m == 0
  {}

  lemma BitTable()
    ensures Bit(0) == 0x00000001 && Bit(1) == 0x00000002 && Bit(2) == 0x00000004 && Bit(3) == 0x00000008
    ensures Bit(4) == 0x00000010 && Bit(5) == 0x00000020 && Bit(6) == 0x00000040 && Bit(7) == 0x00000080
    ensures Bit(8) == 0x00000100 && Bit(9) == 0x00000200 && Bit(10) == 0x00000400 && Bit(11) == 0x00000800
    ensures Bit(12) == 0x00001000 && Bit(13) == 0x00002000 && Bit(14) == 0x00004000 && Bit(15) == 0x00008000
    ensures Bit(16) == 0x00010000 && Bit(17) == 0x00020000 && Bit(18) == 0x00040000 && Bit(19) == 0x00080000
    ensures Bit(20) == 0x00100000 && Bit(21) == 0x00200000 && Bit(22) == 0x00400000 && Bit(23) == 0x00800000
    ensures Bit(24) == 0x01000000 && Bit(25) == 0x02000000 && Bit(26) == 0x04000000 && Bit(27) == 0x08000000
    ensures Bit(28) == 0x10000000 && Bit(29) == 0x20000000 && Bit(30) == 0x40000000 && Bit(31) == 0x80000000
  {
    assert Bit(0) == 0x00000001; assert Bit(1) == 0x00000002; assert Bit(2) == 0x00000004; assert Bit(3) == 0x00000008;
    assert Bit(4) == 0x00000010; assert Bit(5) == 0x00000020; assert Bit(6) == 0x00000040; assert Bit(7) == 0x00000080;
    assert Bit(8) == 0x00000100; assert Bit(9) == 0x00000200;
    assert Bit(10) == 0x00000400; assert Bit(11) == 0x00000800;
    assert Bit(12) == 0x00001000; assert Bit(13) == 0x00002000;
    assert Bit(14) == 0x00004000; assert Bit(15) == 0x00008000;
    assert Bit(16) == 0x00010000; assert Bit(17) == 0x00020000;
    assert Bit(18) == 0x00040000; assert Bit(19) == 0x00080000;
    assert Bit(20) == 0x00100000; assert Bit(21) == 0x00200000;
    assert Bit(22) == 0x00400000; assert Bit(23) == 0x00800000;
    assert Bit(24) == 0x01000000; assert Bit(25) == 0x02000000;
    assert Bit(26) == 0x04000000; assert Bit(27) == 0x08000000;
    assert Bit(28) == 0x10000000; assert Bit(29) == 0x20000000;
    assert Bit(30) == 0x40000000; assert Bit(31) == 0x80000000;
  }

  lemma {:induction false} BitIsSingle(i: nat)
    requires i < 32
    ensures Bit(i) & (Bit(i) - 1) == 0
    ensures i >= 8 ==> Bit(i) & 0xff == 0
  {
    if i > 0 {
      BitIsSingle(i - 1);
      NextBit(Bit(i - 1));
    }
  }

  lemma BitOfXor(a: bv32, b: bv32, i: nat)
    requires i < 32
    ensures BitSet(a ^ b, i) <==> (BitSet(a, i) != BitSet(b, i))
  {
    BitIsSingle(i);
    XorAt(a, b, Bit(i));
  }

  lemma BitOfShifted(a: bv32, s: bv32, i: nat, now: bool, before: bool)
    requires i < 31
    requires s == a >> 1
    requires now == BitSet(s, i) && before == BitSet(a, i + 1)
    ensures now == before
  {
    ShiftAt(a, s, Bit(i), Bit(i + 1));
  }

  lemma BitOfShift(a: bv32, i: nat)
    requires i < 31
    ensures BitSet(a >> 1, i) == BitSet(a, i + 1)
  {
    BitOfShifted(a, a >> 1, i, BitSet(a >> 1, i), BitSet(a, i + 1));
  }

  lemma TopBitOfShift(a: bv32)
    ensures !BitSet(a >> 1, 31)
  {
    BitTable();
    ShiftedTop(a);
  }

  lemma ShiftedTop(a: bv32)
    ensures (a >> 1) & 0x80000000 == 0
  {}

  lemma HighBitOfByte(b: bv8, i: nat)
    requires 8 <= i < 32
    ensures !BitSet(b as bv32, i)
  {
    BitIsSingle(i);
    ByteAt(b, Bit(i));
  }

  lemma WordOfXor(a: bv32, b: bv32)
    ensures WordPoly(a ^ b) == AddFront(WordPoly(a), WordPoly(b))
  {
    forall i | 0 <= i < 32
      ensures WordPoly(a ^ b)[i] == AddFront(WordPoly(a), WordPoly(b))[i]
    {
      BitOfXor(a, b, i);
    }
  }

  lemma WordOfByte(b: bv8)
    ensures WordPoly(b as bv32) == BytePoly(b) + Zeros(24)
  {
    var w := WordPoly(b as bv32);
    forall i | 8 <= i < 32
      ensures w[i] == false
    {
      HighBitOfByte(b, i);
    }
  }

  lemma WordOfShift(a: bv32)
    ensures WordPoly(a >> 1) == WordPoly(a)[1..] + [false]
  {
    var p, q := WordPoly(a >> 1), WordPoly(a)[1..] + [false];
    forall i | 0 <= i < 32
      ensures p[i] == q[i]
    {
      if i < 31 { BitOfShift(a, i); } else { TopBitOfShift(a); }
    }
  }

  lemma WordOfLow(a: bv32)
    ensures WordPoly(a)[0] <==> a & 1 == 1
  {
    LowBit(a);
  }

  lemma WordOfZero()
    ensures WordPoly(0) == Zeros(32)
  {
    var p := WordPoly(0);
    forall i | 0 <= i < 32
      ensures p[i] == false
    {
    }
  }

  lemma WordOfPoly()
    ensures WordPoly(CRC_POLY) == GENERATOR_TAIL
  {
    BitTable();
    var p := WordPoly(CRC_POLY);
    assert p[0] == GENERATOR_TAIL[0];
    assert p[1] == GENERATOR_TAIL[1];
  }

  lemma AddPadded(p: Poly, q: Poly, n: nat)
    requires |q| + n <= |p|
    ensures AddFront(p, q + Zeros(n)) == AddFront(p, q)
  {}

  lemma FoldWord(c: bv32, w: bv32, b: bv8)
    requires WordPoly(w) == BytePoly(b) + Zeros(24)
    ensures WordPoly(c ^ w) == AddFront(WordPoly(c), BytePoly(b))
  {
    WordOfXor(c, w);
    AddPadded(WordPoly(c), BytePoly(b), 24);
  }

  lemma WordOfFold(c: bv32, b: bv8)
    ensures WordPoly(c ^ (b as bv32)) == AddFront(WordPoly(c), BytePoly(b))
  {
    WordOfByte(b);
    FoldWord(c, b as bv32, b);
  }

  lemma WordOfTurn(c: bv32, mult: bv32)
    requires mult == if c & 1 == 1 then CRC_POLY else 0
    ensures WordPoly((c >> 1) ^ mult) == BitStep(WordPoly(c))
  {
    WordOfXor(c >> 1, mult);
    WordOfShift(c);
    WordOfLow(c);
    WordOfPoly();
    WordOfZero();
  }

  method Crc32Le(seed: bv32, data: seq<bv8>) returns (crc: bv32)
    ensures WordPoly(crc) == Crc(WordPoly(seed), data)
  {
    crc := seed;
    var rest := data;
    while |rest| > 0
      invariant Crc(WordPoly(crc), rest) == Crc(WordPoly(seed), data)
      decreases |rest|
    {
      WordOfFold(crc, rest[0]);
      crc := crc ^ (rest[0] as bv32);
      ghost var folded := WordPoly(crc);
      rest := rest[1..];
      for i := 0 to 8
        invariant BitSteps(WordPoly(crc), 8 - i) == BitSteps(folded, 8)
      {
        var mult: bv32 := if crc & 1 == 1 then CRC_POLY else 0;
        WordOfTurn(crc, mult);
        crc := (crc >> 1) ^ mult;
      }
    }
  }

  // ---------------------------------------------------------------------------
  // Linearity over XOR
  // ---------------------------------------------------------------------------

  function XorRegisters(r: Register, s: Register): Register { AddFront(r, s) }

  function XorBytes(m: seq<bv8>, n: seq<bv8>): (x: seq<bv8>)
    requires |m| == |n|
    ensures |x| == |m|
  {
    if m == [] then [] else [m[0] ^ n[0]] + XorBytes(m[1..], n[1..])
  }

  lemma XorBytesTail(m: seq<bv8>, n: seq<bv8>)
    requires |m| == |n| > 0
    ensures XorBytes(m, n)[0] == m[0] ^ n[0] && XorBytes(m, n)[1..] == XorBytes(m[1..], n[1..])
  {}

  lemma {:induction false} BitStepsLinear(r: Register, s: Register, n: nat)
    ensures BitSteps(XorRegisters(r, s), n) == XorRegisters(BitSteps(r, n), BitSteps(s, n))
    decreases n
  {
    if n > 0 {
      assert BitStep(XorRegisters(r, s)) == XorRegisters(BitStep(r), BitStep(s));
      BitStepsLinear(BitStep(r), BitStep(s), n - 1);
    }
  }

  lemma XorOfBytes(a: bv8, b: bv8)
    ensures (a ^ b) as bv32 == (a as bv32) ^ (b as bv32)
  {}

  lemma ByteOfXor(a: bv8, b: bv8)
    ensures BytePoly(a ^ b) == AddFront(BytePoly(a), BytePoly(b))
  {
    XorOfBytes(a, b);
    WordOfXor(a as bv32, b as bv32);
  }

  lemma FoldLinear(r: Register, s: Register, a: bv8, b: bv8)
    ensures AddFront(XorRegisters(r, s), BytePoly(a ^ b))
         == XorRegisters(AddFront(r, BytePoly(a)), AddFront(s, BytePoly(b)))
  {
    ByteOfXor(a, b);
  }

  // The checksum of an XOR of seeds and equal-length messages is the XOR of the checksums.
  lemma {:induction false} CrcLinear(r: Register, s: Register, m: seq<bv8>, n: seq<bv8>)
    requires |m| == |n|
    ensures Crc(XorRegisters(r, s), XorBytes(m, n)) == XorRegisters(Crc(r, m), Crc(s, n))
    decreases |m|
  {
    if m != [] {
      var p, q := AddFront(r, BytePoly(m[0])), AddFront(s, BytePoly(n[0]));
      FoldLinear(r, s, m[0], n[0]);
      BitStepsLinear(p, q, 8);
      XorBytesTail(m, n);
      CrcLinear(BitSteps(p, 8), BitSteps(q, 8), m[1..], n[1..]);
    }
  }

  // ---------------------------------------------------------------------------
  // The checksum is a remainder of polynomial long division
  // ---------------------------------------------------------------------------

  // Schoolbook long division: while a coefficient stands above x^31, cancel it with a copy of the
  // generator shifted under it. 32 coefficients are left.
  function Remainder(p: Poly): (r: Register)
    requires |p| >= 32
    decreases |p|
  {
    if |p| == 32 then p
    else if p[0] then Remainder(AddFront(p[1..], GENERATOR_TAIL))
    else Remainder(p[1..])
  }

  // Dividing one coefficient further turns the register over once.
  lemma DivideOne(p: Poly, r: Register)
    requires |p| > 32
    ensures Remainder(AddFront(p, r))
         == Remainder(AddFront(p[1..], BitStep(AddFront(r, p[..1]))))
  {
    var x := AddFront(p, r);
    var y := AddFront(p[1..], BitStep(AddFront(r, p[..1])));
    if x[0] {
      assert AddFront(x[1..], GENERATOR_TAIL) == y;
    } else {
      assert x[1..] == y;
    }
  }

  lemma StepSplit(r: Register, p: Poly, n: nat)
    requires 0 < n <= 8 && n <= |p|
    ensures AddFront(BitStep(AddFront(r, p[..1])), p[1..][..n - 1]) == BitStep(AddFront(r, p[..n]))
  {
    assert p[1..][..n - 1] == p[1..n];
    var x, y := AddFront(r, p[..1]), AddFront(r, p[..n]);
    assert x[0] == y[0];
    forall i | 0 <= i < 32
      ensures AddFront(BitStep(x), p[1..n])[i] == BitStep(y)[i]
    {
    }
  }

  // Coefficients still to be folded may all be folded at once.
  lemma {:induction false} DivideMany(p: Poly, r: Register, n: nat)
    requires n <= 8 && |p| >= 32 + n
    ensures Remainder(AddFront(p, r)) == Remainder(AddFront(p[n..], BitSteps(AddFront(r, p[..n]), n)))
    decreases n
  {
    if n == 0 {
      assert AddFront(r, p[..0]) == r;
    } else {
      var turned := BitStep(AddFront(r, p[..1]));
      DivideOne(p, r);
      DivideMany(p[1..], turned, n - 1);
      assert p[1..][n - 1..] == p[n..];
      StepSplit(r, p, n);
    }
  }

  // Crc is the remainder of the message times x^32, with the seed added to its leading coefficients.
  lemma {:induction false} CrcIsRemainder(r: Register, data: seq<bv8>)
    ensures Crc(r, data) == Remainder(AddFront(MessagePoly(data) + Zeros(32), r))
    decreases |data|
  {
    var p := MessagePoly(data) + Zeros(32);
    if data == [] {
      assert AddFront(p, r) == r;
    } else {
      assert p[8..] == MessagePoly(data[1..]) + Zeros(32);
      assert p[..8] == BytePoly(data[0]);
      DivideMany(p, r, 8);
      CrcIsRemainder(BitSteps(AddFront(r, BytePoly(data[0])), 8), data[1..]);
    }
  }

  // ---------------------------------------------------------------------------
  // Division in the usual sense: quotient times generator, plus remainder
  // ---------------------------------------------------------------------------

  function Xor(p: Poly, q: Poly): (r: Poly)
    requires |p| == |q|
    ensures |r| == |p|
  {
    AddFront(p, q)
  }

  // The product of a polynomial and the generator x^32 + GENERATOR_TAIL: for each coefficient, a copy of the
  // generator shifted under it.
  function TimesGenerator(q: Poly): (p: Poly)
    ensures |p| == |q| + 32
  {
    if q == [] then Zeros(32)
    else
      var rest := TimesGenerator(q[1..]);
      [q[0]] + AddIf(q[0], rest, GENERATOR_TAIL)
  }

  // The coefficients at which long division takes a copy of the generator away.
  function Quotient(p: Poly): (q: Poly)
    requires |p| >= 32
    ensures |q| == |p| - 32
    decreases |p|
  {
    if |p| == 32 then []
    else [p[0]] + Quotient(AddIf(p[0], p[1..], GENERATOR_TAIL))
  }

  // A remainder under n further coefficients.
  function Under(r: Register, n: nat): (p: Poly)
    ensures |p| == n + 32
  {
    Zeros(n) + r
  }

  lemma UnderNext(r: Register, n: nat)
    ensures Under(r, n + 1) == [false] + Under(r, n)
  {
    assert Zeros(n + 1) == [false] + Zeros(n);
  }

  lemma XorHeads(head: bool, a: Poly, b: Poly)
    requires |a| == |b|
    ensures Xor([head] + a, [false] + b) == [head] + Xor(a, b)
  {
  }

  lemma XorAfterAdd(a: Poly, b: Poly, g: Poly)
    requires |a| == |b| >= |g|
    ensures Xor(AddFront(a, g), b) == AddFront(Xor(a, b), g)
  {
  }

  // Adds g if the head says so.
  function AddIf(head: bool, p: Poly, g: Poly): (r: Poly)
    requires |g| <= |p|
    ensures |r| == |p|
  {
    if head then AddFront(p, g) else p
  }

  lemma HeadStep(head: bool, rest: Poly, under: Poly, g: Poly)
    requires |rest| == |under| >= |g|
    ensures Xor([head] + AddIf(head, rest, g), [false] + under) == [head] + AddIf(head, Xor(rest, under), g)
  {
    XorHeads(head, AddIf(head, rest, g), under);
    XorAfterAdd(rest, under, g);
  }

  lemma TimesNext(q: Poly)
    requires q != []
    ensures TimesGenerator(q) == [q[0]] + AddIf(q[0], TimesGenerator(q[1..]), GENERATOR_TAIL)
  {
  }

  // One coefficient of a product with a remainder under it.
  lemma ProductStep(head: bool, rest: Poly, product: Poly, r: Register, n: nat)
    requires |rest| == n + 32 && product == [head] + AddIf(head, rest, GENERATOR_TAIL)
    ensures Xor(product, Under(r, n + 1)) == [head] + AddIf(head, Xor(rest, Under(r, n)), GENERATOR_TAIL)
  {
    UnderNext(r, n);
    HeadStep(head, rest, Under(r, n), GENERATOR_TAIL);
  }

  lemma AddTwice(p: Poly)
    requires |p| >= 32
    ensures AddFront(AddFront(p, GENERATOR_TAIL), GENERATOR_TAIL) == p
  {
  }

  // The dividend is its quotient times the generator, plus its remainder.
  lemma {:induction false} DivisionIsExact(p: Poly)
    requires |p| >= 32
    ensures Xor(TimesGenerator(Quotient(p)), Under(Remainder(p), |p| - 32)) == p
    decreases |p|
  {
    if |p| == 32 {
      assert Under(p, 0) == p;
    } else {
      var next := AddIf(p[0], p[1..], GENERATOR_TAIL);
      DivisionIsExact(next);
      assert Quotient(p)[1..] == Quotient(next) && Remainder(p) == Remainder(next);
      TimesNext(Quotient(p));
      ProductStep(p[0], TimesGenerator(Quotient(next)), TimesGenerator(Quotient(p)), Remainder(p), |p| - 33);
      AddTwice(p[1..]);
      assert p == [p[0]] + p[1..];
    }
  }

  // And in one way only: whatever times the generator, plus 32 coefficients, gives the dividend.
  lemma {:induction false} DivisionIsUnique(p: Poly, q: Poly, r: Register)
    requires |p| == |q| + 32 && Xor(TimesGenerator(q), Under(r, |q|)) == p
    ensures q == Quotient(p) && r == Remainder(p)
    decreases |q|
  {
    if q == [] {
      assert Under(r, 0) == r;
      assert p == r;
    } else {
      var below := Xor(TimesGenerator(q[1..]), Under(r, |q| - 1));
      TimesNext(q);
      ProductStep(q[0], TimesGenerator(q[1..]), TimesGenerator(q), r, |q| - 1);
      AddTwice(below);
      var next := AddIf(p[0], p[1..], GENERATOR_TAIL);
      assert p[0] == q[0] && next == below;
      DivisionIsUnique(next, q[1..], r);
      assert q == [q[0]] + q[1..];
    }
  }

  // So the checksum is THE polynomial of degree below 32 that differs from the message times x^32, with the
  // seed added to its leading coefficients, by a multiple of the generator.
  lemma CrcIsTheRemainder(r: Register, data: seq<bv8>, q: Poly, c: Register)
    requires |q| == 8 * |data|
    ensures Xor(TimesGenerator(q), Under(c, |q|)) == AddFront(MessagePoly(data) + Zeros(32), r)
       <==> q == Quotient(AddFront(MessagePoly(data) + Zeros(32), r)) && c == Crc(r, data)
  {
    var p := AddFront(MessagePoly(data) + Zeros(32), r);
    CrcIsRemainder(r, data);
    DivisionIsExact(p);
    if Xor(TimesGenerator(q), Under(c, |q|)) == p { DivisionIsUnique(p, q, c); }
  }

  // ---------------------------------------------------------------------------
  // Bursts of up to four bytes are detected
  // ---------------------------------------------------------------------------

  // The generator ends in "+ 1", so a turn of the register can be undone.
  lemma BitStepInjective(r: Register, s: Register)
    requires BitStep(r) == BitStep(s)
    ensures r == s
  {
    var a, b := BitStep(r), BitStep(s);
    assert a[31] == r[0] && b[31] == s[0];
    forall i | 0 < i < 32
      ensures r[i] == s[i]
    {
      assert a[i - 1] == b[i - 1];
    }
  }

  lemma {:induction false} BitStepsInjective(r: Register, s: Register, n: nat)
    requires BitSteps(r, n) == BitSteps(s, n)
    ensures r == s
    decreases n
  {
    if n > 0 {
      BitStepsInjective(BitStep(r), BitStep(s), n - 1);
      BitStepInjective(r, s);
    }
  }

  // Equal messages keep different registers different.
  lemma {:induction false} CrcInjectiveInSeed(r: Register, s: Register, data: seq<bv8>)
    requires Crc(r, data) == Crc(s, data)
    ensures r == s
    decreases |data|
  {
    if data != [] {
      var b := BytePoly(data[0]);
      CrcInjectiveInSeed(BitSteps(AddFront(r, b), 8), BitSteps(AddFront(s, b), 8), data[1..]);
      BitStepsInjective(AddFront(r, b), AddFront(s, b), 8);
      forall i | 0 <= i < 32
        ensures r[i] == s[i]
      {
        assert AddFront(r, b)[i] == AddFront(s, b)[i];
      }
    }
  }

  lemma {:induction false} BitStepsAdd(r: Register, m: nat, n: nat)
    ensures BitSteps(r, m + n) == BitSteps(BitSteps(r, m), n)
    decreases m
  {
    if m > 0 {
      BitStepsAdd(BitStep(r), m - 1, n);
    }
  }

  lemma StepLater(r: Register, q: Poly, n: nat)
    requires 0 < n && n + |q| <= 32
    ensures BitStep(AddFront(r, Zeros(n) + q)) == AddFront(BitStep(r), Zeros(n - 1) + q)
  {
    var x, y := AddFront(r, Zeros(n) + q), AddFront(BitStep(r), Zeros(n - 1) + q);
    assert x[0] == r[0];
    assert forall i :: 0 <= i < 31 ==> x[1..][i] == AddFront(r[1..], Zeros(n - 1) + q)[i];
    forall i | 0 <= i < 32
      ensures BitStep(x)[i] == y[i]
    {
    }
  }

  // Coefficients beyond the first n pass through n turns untouched but for their place.
  lemma {:induction false} FoldLater(r: Register, q: Poly, n: nat)
    requires n + |q| <= 32
    ensures BitSteps(AddFront(r, Zeros(n) + q), n) == AddFront(BitSteps(r, n), q)
    decreases n
  {
    if n == 0 {
      assert Zeros(0) + q == q;
    } else {
      StepLater(r, q, n);
      FoldLater(BitStep(r), q, n - 1);
    }
  }

  lemma AddInTwoParts(p: Poly, q: Poly, t: Poly)
    requires |q| + |t| <= |p|
    ensures AddFront(AddFront(p, q), Zeros(|q|) + t) == AddFront(p, q + t)
  {}

  // Up to four bytes folded one by one are the same as folded together.
  lemma {:induction false} CrcOfWindow(r: Register, w: seq<bv8>)
    requires |w| <= 4
    ensures Crc(r, w) == BitSteps(AddFront(r, MessagePoly(w)), 8 * |w|)
    decreases |w|
  {
    if w == [] {
      assert AddFront(r, []) == r;
    } else {
      var first, rest := BytePoly(w[0]), MessagePoly(w[1..]);
      var folded := AddFront(r, first);
      CrcOfWindow(BitSteps(folded, 8), w[1..]);
      FoldLater(folded, rest, 8);
      AddInTwoParts(r, first, rest);
      BitStepsAdd(AddFront(r, first + rest), 8, 8 * |w[1..]|);
    }
  }

  lemma {:induction false} CrcAppend(r: Register, m: seq<bv8>, n: seq<bv8>)
    ensures Crc(r, m + n) == Crc(Crc(r, m), n)
    decreases |m|
  {
    if m == [] {
      assert m + n == n;
    } else {
      assert (m + n)[1..] == m[1..] + n;
      CrcAppend(BitSteps(AddFront(r, BytePoly(m[0])), 8), m[1..], n);
    }
  }

  lemma ByteFromBits(a: bv8, b: bv8)
    requires (a as bv32) & 0x01 != 0 <==> (b as bv32) & 0x01 != 0
    requires (a as bv32) & 0x02 != 0 <==> (b as bv32) & 0x02 != 0
    requires (a as bv32) & 0x04 != 0 <==> (b as bv32) & 0x04 != 0
    requires (a as bv32) & 0x08 != 0 <==> (b as bv32) & 0x08 != 0
    requires (a as bv32) & 0x10 != 0 <==> (b as bv32) & 0x10 != 0
    requires (a as bv32) & 0x20 != 0 <==> (b as bv32) & 0x20 != 0
    requires (a as bv32) & 0x40 != 0 <==> (b as bv32) & 0x40 != 0
    requires (a as bv32) & 0x80 != 0 <==> (b as bv32) & 0x80 != 0
    ensures a == b
  {}

  lemma ByteBit(a: bv8, w: bv32, i: nat)
    requires i < 8 && w == a as bv32
    ensures BytePoly(a)[i] <==> w & Bit(i) != 0
  {
    assert BytePoly(a)[i] == WordPoly(w)[i];
    assert WordPoly(w)[i] == BitSet(w, i);
  }

  lemma ByteBits(a: bv8)
    ensures BytePoly(a)[0] <==> (a as bv32) & 0x01 != 0
    ensures BytePoly(a)[1] <==> (a as bv32) & 0x02 != 0
    ensures BytePoly(a)[2] <==> (a as bv32) & 0x04 != 0
    ensures BytePoly(a)[3] <==> (a as bv32) & 0x08 != 0
    ensures BytePoly(a)[4] <==> (a as bv32) & 0x10 != 0
    ensures BytePoly(a)[5] <==> (a as bv32) & 0x20 != 0
    ensures BytePoly(a)[6] <==> (a as bv32) & 0x40 != 0
    ensures BytePoly(a)[7] <==> (a as bv32) & 0x80 != 0
  {
    BitTable();
    var w := a as bv32;
    ByteBit(a, w, 0); ByteBit(a, w, 1); ByteBit(a, w, 2); ByteBit(a, w, 3);
    ByteBit(a, w, 4); ByteBit(a, w, 5); ByteBit(a, w, 6); ByteBit(a, w, 7);
  }

  lemma ByteInjective(a: bv8, b: bv8)
    requires BytePoly(a) == BytePoly(b)
    ensures a == b
  {
    ByteBits(a);
    ByteBits(b);
    ByteFromBits(a, b);
  }

  lemma {:induction false} MessageInjective(m: seq<bv8>, n: seq<bv8>)
    requires |m| == |n| && MessagePoly(m) == MessagePoly(n)
    ensures m == n
    decreases |m|
  {
    if m != [] {
      var p := MessagePoly(m);
      assert BytePoly(m[0]) == p[..8] && MessagePoly(m[1..]) == p[8..];
      assert BytePoly(n[0]) == p[..8] && MessagePoly(n[1..]) == p[8..];
      ByteInjective(m[0], n[0]);
      MessageInjective(m[1..], n[1..]);
    }
  }

  lemma SameWindow(r: Register, w: seq<bv8>, v: seq<bv8>)
    requires |w| == |v| <= 4
    requires Crc(r, w) == Crc(r, v)
    ensures w == v
  {
    CrcOfWindow(r, w);
    CrcOfWindow(r, v);
    var p, q := AddFront(r, MessagePoly(w)), AddFront(r, MessagePoly(v));
    BitStepsInjective(p, q, 8 * |w|);
    forall i | 0 <= i < 8 * |w|
      ensures MessagePoly(w)[i] == MessagePoly(v)[i]
    {
      assert p[i] == q[i];
    }
    MessageInjective(w, v);
  }

  // Two messages that agree outside a window of at most four bytes have the same checksum, from the
  // same seed, only when they are the same message.
  lemma BurstDetected(seed: Register, before: seq<bv8>, w: seq<bv8>, v: seq<bv8>, after: seq<bv8>)
    requires |w| == |v| <= 4
    ensures Crc(seed, before + w + after) == Crc(seed, before + v + after) <==> w == v
  {
    CrcAppend(seed, before + w, after);
    CrcAppend(seed, before, w);
    CrcAppend(seed, before + v, after);
    CrcAppend(seed, before, v);
    var r := Crc(seed, before);
    if Crc(seed, before + w + after) == Crc(seed, before + v + after) {
      CrcInjectiveInSeed(Crc(r, w), Crc(r, v), after);
      SameWindow(r, w, v);
    }
  }

  // ---------------------------------------------------------------------------
  // On words
  // ---------------------------------------------------------------------------

  // What the loops promise of their result.
  predicate Checksum(seed: bv32, data: seq<bv8>, crc: bv32) { WordPoly(crc) == Crc(WordPoly(seed), data) }

  lemma NoBits(x: bv32)
    requires x & 0x1 == 0 && x & 0x2 == 0 && x & 0x4 == 0 && x & 0x8 == 0
    requires x & 0x10 == 0 && x & 0x20 == 0 && x & 0x40 == 0 && x & 0x80 == 0
    requires x & 0x100 == 0 && x & 0x200 == 0 && x & 0x400 == 0 && x & 0x800 == 0
    requires x & 0x1000 == 0 && x & 0x2000 == 0 && x & 0x4000 == 0 && x & 0x8000 == 0
    requires x & 0x10000 == 0 && x & 0x20000 == 0 && x & 0x40000 == 0 && x & 0x80000 == 0
    requires x & 0x100000 == 0 && x & 0x200000 == 0 && x & 0x400000 == 0 && x & 0x800000 == 0
    requires x & 0x1000000 == 0 && x & 0x2000000 == 0 && x & 0x4000000 == 0 && x & 0x8000000 == 0
    requires x & 0x10000000 == 0 && x & 0x20000000 == 0 && x & 0x40000000 == 0 && x & 0x80000000 == 0
    ensures x == 0
  {
  }

  // A word is known by its coefficients.
  lemma WordInjective(a: bv32, b: bv32)
    requires WordPoly(a) == WordPoly(b)
    ensures a == b
  {
    var x := a ^ b;
    WordOfXor(a, b);
    forall i | 0 <= i < 32
      ensures x & Bit(i) == 0
    {
      assert WordPoly(x)[i] == BitSet(x, i);
      assert WordPoly(a)[i] == WordPoly(b)[i];
    }
    BitTable();
    NoBits(x);
    SameWord(a, b);
  }

  lemma SameWord(a: bv32, b: bv32)
    requires a ^ b == 0
    ensures a == b
  {
  }

  // The words that the loops compute are linear, too.
  lemma WordsLinear(s: bv32, t: bv32, m: seq<bv8>, n: seq<bv8>, a: bv32, b: bv32, c: bv32)
    requires |m| == |n| && Checksum(s, m, a) && Checksum(t, n, b) && Checksum(s ^ t, XorBytes(m, n), c)
    ensures c == a ^ b
  {
    WordOfXor(s, t);
    WordOfXor(a, b);
    CrcLinear(WordPoly(s), WordPoly(t), m, n);
    WordInjective(c, a ^ b);
  }

  // And they tell messages apart that differ in a window of at most four bytes.
  lemma WordsDetectBurst(seed: bv32, before: seq<bv8>, w: seq<bv8>, v: seq<bv8>, after: seq<bv8>, a: bv32, b: bv32)
    requires |w| == |v| <= 4
    requires Checksum(seed, before + w + after, a) && Checksum(seed, before + v + after, b)
    ensures a == b <==> w == v
  {
    BurstDetected(WordPoly(seed), before, w, v, after);
    if w == v { WordInjective(a, b); }
  }
}
