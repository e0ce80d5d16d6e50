/** The 32-bit lock word (src/lib.rs:603-612) and its decoding.

    Words are naturals below 2^32 and the bitwise operators are defined bit by bit, so that the additions
    and subtractions on the reader field are plain arithmetic and the masks are what they are in the source.
 */
module Words {
  import opened Phases
  import opened FutexProtocol

  const WRITE_WAITER_BIT := 0x8000_0000
  const READ_WAITER_BIT := 0x4000_0000
  const LOCKED_BIT := 0x2000_0000
  const READER_OVERF := 0x1000_0000
  const READER_BITS := 0x0FFF_FF00
  const READER_UNITY := 0x0000_0100
  const FIELD := 0x20_0000  // the reader field READER_OVERF|READER_BITS holds a number below FIELD
  const ALL_BITS := 0xFFFF_FFFF

  datatype Op = Xor | And | Or

  function OpBit(op: Op, b: bool, c: bool): bool {
    match op
    case Xor => b != c
    case And => b && c
    case Or => b || c
  }

  /** `a op b`, bit by bit. */
  function Bitwise(op: Op, a: nat, b: nat): nat
    decreases a + b
  {
    if a == 0 && b == 0 then 0
    else 2 * Bitwise(op, a / 2, b / 2) + Bit(OpBit(op, a % 2 == 1, b % 2 == 1))
  }

  /** `!m` of a 32-bit mask. */
  function Complement(m: nat): nat
    requires m <= ALL_BITS
  {
    ALL_BITS - m
  }

  /** `fetch_sub` wraps. */
  function WrapSub(a: nat, b: nat): nat
    requires a <= ALL_BITS && b <= ALL_BITS
  {
    (a + ALL_BITS + 1 - b) % (ALL_BITS + 1)
  }

  function Flags(w: Word): nat { Bit(w.locked) + 2 * Bit(w.rw) + 4 * Bit(w.ww) }

  /** The 32-bit word of a decoded word. */
  function Encode(w: Word): nat { Bits(w.phase) + 0x100 * (w.readers + FIELD * Flags(w)) }

  function PhaseOf(b: nat): Phase {
    Phase(b % 2 == 1, b / 2 % 2 == 1, b / 4 % 2 == 1, b / 8 % 2 == 1,
          b / 16 % 2 == 1, b / 32 % 2 == 1, b / 64 % 2 == 1, b / 128 % 2 == 1)
  }

  /** `Phase::from_bits_truncate` and the fields above it. */
  function Decode(v: nat): Word {
    var f := v / 0x2000_0000;
    Word(PhaseOf(v % 0x100), v / 0x100 % FIELD, f % 2 == 1, f / 2 % 2 == 1, f / 4 % 2 == 1)
  }

  predicate Fits(w: Word) { w.readers < FIELD }

  function Nibble(a: bool, b: bool, c: bool, d: bool): (n: nat)
    ensures n < 0x10
  {
    Bit(a) + 2 * (Bit(b) + 2 * (Bit(c) + 2 * Bit(d)))
  }

  lemma NibbleInverse(a: bool, b: bool, c: bool, d: bool)
    ensures var n := Nibble(a, b, c, d); n % 2 == Bit(a) && n / 2 % 2 == Bit(b) && n / 4 % 2 == Bit(c) && n / 8 == Bit(d)
  {
    var x := Bit(c) + 2 * Bit(d);
    var y := Bit(b) + 2 * x;
    var n := Bit(a) + 2 * y;
    assert n / 2 == y && y / 2 == x && n / 4 == x && n / 8 == x / 2;
  }

  function LowPhase(p: Phase): (n: nat)
    ensures n < 0x10
  { Nibble(p.initialized, p.initPanicked, p.initSkipped, p.registered) }

  function HighPhase(p: Phase): (n: nat)
    ensures n < 0x10
  { Nibble(p.regPanicked, p.regRefused, p.finalized, p.finPanicked) }

  lemma LowHalf(l: nat, h: nat)
    requires l < 0x10 && h < 0x10
    ensures var b := l + 0x10 * h;
      b % 2 == l % 2 && b / 2 % 2 == l / 2 % 2 && b / 4 % 2 == l / 4 % 2 && b / 8 % 2 == l / 8
  {
    var b := l + 0x10 * h;
    assert b / 2 == l / 2 + 8 * h && b / 4 == l / 4 + 4 * h && b / 8 == l / 8 + 2 * h;
  }

  lemma HighHalf(l: nat, h: nat)
    requires l < 0x10 && h < 0x10
    ensures var b := l + 0x10 * h;
      b / 16 % 2 == h % 2 && b / 32 % 2 == h / 2 % 2 && b / 64 % 2 == h / 4 % 2 && b / 128 % 2 == h / 8
  {
    var b := l + 0x10 * h;
    assert b / 16 == h && b / 32 == h / 2 && b / 64 == h / 4 && b / 128 == h / 8;
  }

  lemma HalvesOfByte(l: nat, h: nat)
    requires l < 0x10 && h < 0x10
    ensures var b := l + 0x10 * h;
      && b % 2 == l % 2 && b / 2 % 2 == l / 2 % 2 && b / 4 % 2 == l / 4 % 2 && b / 8 % 2 == l / 8
      && b / 16 % 2 == h % 2 && b / 32 % 2 == h / 2 % 2 && b / 64 % 2 == h / 4 % 2 && b / 128 % 2 == h / 8
  {
    LowHalf(l, h);
    HighHalf(l, h);
  }

  lemma BitsHalves(p: Phase)
    ensures Bits(p) == LowPhase(p) + 0x10 * HighPhase(p) < 0x100
  {
  }

  lemma BitsInverse(p: Phase)
    ensures Bits(p) < 0x100 && PhaseOf(Bits(p)) == p
  {
    BitsHalves(p);
    NibbleInverse(p.initialized, p.initPanicked, p.initSkipped, p.registered);
    NibbleInverse(p.regPanicked, p.regRefused, p.finalized, p.finPanicked);
    HalvesOfByte(LowPhase(p), HighPhase(p));
  }

  lemma FlagsInverse(w: Word)
    ensures var f := Flags(w); f < 8 && (f % 2 == 1) == w.locked && (f / 2 % 2 == 1) == w.rw && (f / 4 % 2 == 1) == w.ww
  {
    NibbleInverse(w.locked, w.rw, w.ww, false);
  }

  lemma Fields(p: nat, r: nat, f: nat)
    requires p < 0x100 && r < FIELD
    ensures var v := p + 0x100 * (r + FIELD * f);
      v % 0x100 == p && v / 0x100 == r + FIELD * f && v / 0x100 % FIELD == r && v / 0x2000_0000 == f
  {
  }

  /** The layout loses nothing: decoding an encoded word gives it back. */
  lemma DecodeEncode(w: Word)
    requires Fits(w)
    ensures Encode(w) <= ALL_BITS && Decode(Encode(w)) == w
  {
    BitsInverse(w.phase);
    FlagsInverse(w);
    Fields(Bits(w.phase), w.readers, Flags(w));
  }

  // ---------- bitwise operations, field by field ----------

  lemma Cons(op: Op, b: bool, c: bool, x: nat, y: nat)
    ensures Bitwise(op, Bit(b) + 2 * x, Bit(c) + 2 * y) == Bit(OpBit(op, b, c)) + 2 * Bitwise(op, x, y)
  {
  }

  lemma HalfBitwise(op: Op, r: nat, m: nat)
    ensures Bitwise(op, r, m) / 2 == Bitwise(op, r / 2, m / 2)
    ensures (Bitwise(op, r, m) % 2 == 1) == OpBit(op, r % 2 == 1, m % 2 == 1)
  {
  }

  function Pow2(k: nat): (p: nat)
    ensures p >= 1
  {
    if k == 0 then 1 else 2 * Pow2(k - 1)
  }

  /** `x << k`. */
  function Shift(k: nat, x: nat): nat { if k == 0 then x else 2 * Shift(k - 1, x) }

  lemma {:induction false} ShiftAdd(j: nat, k: nat, x: nat)
    ensures Shift(j + k, x) == Shift(j, Shift(k, x)) && Pow2(j + k) == Shift(j, Pow2(k))
    decreases j
  {
    if j > 0 { ShiftAdd(j - 1, k, x); }
  }

  lemma {:induction false} BitwiseBound(op: Op, k: nat, r: nat, m: nat)
    requires r < Pow2(k) && m < Pow2(k)
    ensures Bitwise(op, r, m) < Pow2(k)
    decreases k
  {
    if k > 0 { BitwiseBound(op, k - 1, r / 2, m / 2); HalfBitwise(op, r, m); }
  }

  /** A bitwise operation acts on the `k` low bits and on the rest separately. */
  lemma {:induction false} ShiftBitwise(op: Op, k: nat, r: nat, m: nat, x: nat, y: nat)
    requires r < Pow2(k) && m < Pow2(k)
    ensures Bitwise(op, r + Shift(k, x), m + Shift(k, y)) == Bitwise(op, r, m) + Shift(k, Bitwise(op, x, y))
    decreases k
  {
    if k == 0 {
      assert Bitwise(op, 0, 0) == 0;
    } else {
      var r', m' := r / 2, m / 2;
      ShiftBitwise(op, k - 1, r', m', x, y);
      Cons(op, r % 2 == 1, m % 2 == 1, r' + Shift(k - 1, x), m' + Shift(k - 1, y));
      Cons(op, r % 2 == 1, m % 2 == 1, r', m');
    }
  }

  lemma Shifts(x: nat)
    ensures Shift(4, x) == 0x10 * x && Shift(8, x) == 0x100 * x
    ensures Shift(20, x) == MAX_WAKED_READERS * x && Shift(21, x) == FIELD * x
    ensures Pow2(4) == 0x10 && Pow2(8) == 0x100 && Pow2(20) == MAX_WAKED_READERS && Pow2(21) == FIELD
  {
    Nibbles(x);
    ShiftAdd(4, 4, x);
    Nibbles(Shift(4, x));
    Nibbles(Pow2(4));
    ShiftAdd(4, 8, x);
    Nibbles(Shift(8, x));
    Nibbles(Pow2(8));
    ShiftAdd(8, 12, x);
    ShiftAdd(4, 4, Shift(12, x));
    ShiftAdd(4, 4, Pow2(12));
    Nibbles(Shift(12, x));
    Nibbles(Shift(4, Shift(12, x)));
    Nibbles(Pow2(12));
    Nibbles(Shift(4, Pow2(12)));
  }

  lemma Nibbles(x: nat)
    ensures Shift(4, x) == 0x10 * x && Pow2(4) == 0x10
  {
    assert Shift(1, x) == 2 * x && Pow2(1) == 2;
    assert Shift(2, x) == 4 * x && Pow2(2) == 4;
    assert Shift(3, x) == 8 * x && Pow2(3) == 8;
  }

  lemma Cons2(op: Op, a: bool, b: bool, e: bool, f: bool, x: nat, y: nat)
    ensures Bitwise(op, Bit(a) + 2 * (Bit(b) + 2 * x), Bit(e) + 2 * (Bit(f) + 2 * y))
      == Bit(OpBit(op, a, e)) + 2 * (Bit(OpBit(op, b, f)) + 2 * Bitwise(op, x, y))
  {
    var x', y' := Bit(b) + 2 * x, Bit(f) + 2 * y;
    Cons(op, b, f, x, y);
    Cons(op, a, e, x', y');
  }

  lemma NibbleBitwise(op: Op, a: bool, b: bool, c: bool, d: bool, e: bool, f: bool, g: bool, h: bool)
    ensures Bitwise(op, Nibble(a, b, c, d), Nibble(e, f, g, h))
      == Nibble(OpBit(op, a, e), OpBit(op, b, f), OpBit(op, c, g), OpBit(op, d, h))
  {
    var x, y := Bit(c) + 2 * (Bit(d) + 2 * 0), Bit(g) + 2 * (Bit(h) + 2 * 0);
    assert x == Bit(c) + 2 * Bit(d) && y == Bit(g) + 2 * Bit(h);
    Cons2(op, c, d, g, h, 0, 0);
    Cons2(op, a, b, e, f, x, y);
  }

  function PhaseOp(op: Op, p: Phase, q: Phase): Phase {
    match op
    case Xor => Difference(p, q)
    case And => Common(p, q)
    case Or => Union(p, q)
  }

  lemma ByteBitwise(op: Op, l: nat, m: nat, h: nat, k: nat)
    requires l < 0x10 && m < 0x10
    ensures Bitwise(op, l + 0x10 * h, m + 0x10 * k) == Bitwise(op, l, m) + 0x10 * Bitwise(op, h, k)
  {
    var z := Bitwise(op, h, k);
    Nibbles(h);
    Nibbles(k);
    Nibbles(z);
    ShiftBitwise(op, 4, l, m, h, k);
  }

  lemma LowBitwise(op: Op, p: Phase, q: Phase, u: Phase)
    requires u == PhaseOp(op, p, q)
    ensures Bitwise(op, LowPhase(p), LowPhase(q)) == LowPhase(u)
  {
    PhaseOpFlags(op, p, q, u);
    NibbleBitwise(op, p.initialized, p.initPanicked, p.initSkipped, p.registered,
      q.initialized, q.initPanicked, q.initSkipped, q.registered);
  }

  lemma HighBitwise(op: Op, p: Phase, q: Phase, u: Phase)
    requires u == PhaseOp(op, p, q)
    ensures Bitwise(op, HighPhase(p), HighPhase(q)) == HighPhase(u)
  {
    PhaseOpFlags(op, p, q, u);
    NibbleBitwise(op, p.regPanicked, p.regRefused, p.finalized, p.finPanicked,
      q.regPanicked, q.regRefused, q.finalized, q.finPanicked);
  }

  lemma PhaseOpFlags(op: Op, p: Phase, q: Phase, u: Phase)
    requires u == PhaseOp(op, p, q)
    ensures u == Phase(OpBit(op, p.initialized, q.initialized), OpBit(op, p.initPanicked, q.initPanicked),
      OpBit(op, p.initSkipped, q.initSkipped), OpBit(op, p.registered, q.registered),
      OpBit(op, p.regPanicked, q.regPanicked), OpBit(op, p.regRefused, q.regRefused),
      OpBit(op, p.finalized, q.finalized), OpBit(op, p.finPanicked, q.finPanicked))
  {
    match op
    case Xor =>
    case And =>
    case Or =>
  }

  lemma PhaseBitwise(op: Op, p: Phase, q: Phase)
    ensures Bitwise(op, Bits(p), Bits(q)) == Bits(PhaseOp(op, p, q))
  {
    var u := PhaseOp(op, p, q);
    BitsHalves(p);
    BitsHalves(q);
    BitsHalves(u);
    LowBitwise(op, p, q, u);
    HighBitwise(op, p, q, u);
    ByteBitwise(op, LowPhase(p), LowPhase(q), HighPhase(p), HighPhase(q));
  }

  lemma FlagsNibble(w: Word)
    ensures Flags(w) == Nibble(w.locked, w.rw, w.ww, false)
  {
  }

  lemma FlagsBitwise(op: Op, v: Word, w: Word, u: Word)
    requires u == WordOp(op, v, w)
    ensures Bitwise(op, Flags(v), Flags(w)) == Flags(u)
  {
    FlagsNibble(v);
    FlagsNibble(w);
    FlagsNibble(u);
    NibbleBitwise(op, v.locked, v.rw, v.ww, false, w.locked, w.rw, w.ww, false);
  }

  function WordOp(op: Op, v: Word, w: Word): Word {
    Word(PhaseOp(op, v.phase, w.phase), Bitwise(op, v.readers, w.readers),
      OpBit(op, v.locked, w.locked), OpBit(op, v.rw, w.rw), OpBit(op, v.ww, w.ww))
  }

  /** Three fields of 8, 21 and the remaining bits. */
  lemma FieldsBitwise(op: Op, p: nat, q: nat, r: nat, m: nat, f: nat, g: nat)
    requires p < 0x100 && q < 0x100 && r < FIELD && m < FIELD
    ensures Bitwise(op, r, m) < FIELD
    ensures Bitwise(op, p + 0x100 * (r + FIELD * f), q + 0x100 * (m + FIELD * g))
      == Bitwise(op, p, q) + 0x100 * (Bitwise(op, r, m) + FIELD * Bitwise(op, f, g))
  {
    UpperBitwise(op, r, m, f, g);
    ByteAndRest(op, p, q, r + FIELD * f, m + FIELD * g);
  }

  lemma UpperBitwise(op: Op, r: nat, m: nat, f: nat, g: nat)
    requires r < FIELD && m < FIELD
    ensures Bitwise(op, r, m) < FIELD
    ensures Bitwise(op, r + FIELD * f, m + FIELD * g) == Bitwise(op, r, m) + FIELD * Bitwise(op, f, g)
  {
    var z := Bitwise(op, f, g);
    Shifts(f);
    Shifts(g);
    Shifts(z);
    BitwiseBound(op, 21, r, m);
    ShiftBitwise(op, 21, r, m, f, g);
  }

  lemma ByteAndRest(op: Op, p: nat, q: nat, x: nat, y: nat)
    requires p < 0x100 && q < 0x100
    ensures Bitwise(op, p + 0x100 * x, q + 0x100 * y) == Bitwise(op, p, q) + 0x100 * Bitwise(op, x, y)
  {
    var z := Bitwise(op, x, y);
    Shifts(x);
    Shifts(y);
    Shifts(z);
    ShiftBitwise(op, 8, p, q, x, y);
  }

  /** A bitwise operation on two words acts on phase, reader field and flags separately. */
  lemma WordBitwise(op: Op, v: Word, w: Word)
    requires Fits(v) && Fits(w)
    ensures Fits(WordOp(op, v, w))
    ensures Bitwise(op, Encode(v), Encode(w)) == Encode(WordOp(op, v, w))
  {
    PhaseBitwise(op, v.phase, w.phase);
    FlagsBitwise(op, v, w, WordOp(op, v, w));
    FieldsBitwise(op, Bits(v.phase), Bits(w.phase), v.readers, w.readers, Flags(v), Flags(w));
  }

  // ---------- the reader field under the masks of the source ----------

  lemma {:induction false} WithZero(op: Op, r: nat)
    ensures Bitwise(op, r, 0) == if op.And? then 0 else r
    ensures Bitwise(op, 0, r) == if op.And? then 0 else r
    decreases r
  {
    if r > 0 {
      WithZero(op, r / 2);
      HalfBitwise(op, r, 0);
      HalfBitwise(op, 0, r);
    }
  }

  lemma {:induction false} AllOnes(k: nat, r: nat)
    requires r < Pow2(k)
    ensures Bitwise(And, r, Pow2(k) - 1) == r
    decreases k
  {
    if k == 0 {
      WithZero(And, 0);
    } else {
      var m := Pow2(k - 1) - 1;
      var q, b := r / 2, r % 2 == 1;
      assert Pow2(k) - 1 == Bit(true) + 2 * m && r == Bit(b) + 2 * q;
      AllOnes(k - 1, q);
      Cons(And, b, true, q, m);
    }
  }

  lemma XorWithUnity(r: nat)
    ensures Bitwise(Xor, r, 1) == XorUnity(r)
  {
    WithZero(Xor, r / 2);
    HalfBitwise(Xor, r, 1);
  }

  /** The part of the reader field below READER_OVERF and READER_OVERF itself. */
  lemma SplitField(op: Op, r: nat, b: bool, m: nat, c: bool)
    requires r < MAX_WAKED_READERS && m < MAX_WAKED_READERS
    ensures Bitwise(op, r + MAX_WAKED_READERS * Bit(b), m + MAX_WAKED_READERS * Bit(c))
      == Bitwise(op, r, m) + MAX_WAKED_READERS * Bit(OpBit(op, b, c))
  {
    Shifts(Bit(b));
    Shifts(Bit(c));
    Cons(op, b, c, 0, 0);
    Shifts(Bit(OpBit(op, b, c)));
    ShiftBitwise(op, 20, r, m, Bit(b), Bit(c));
  }

  lemma XorWithOverf(r: nat)
    requires r < FIELD
    ensures Bitwise(Xor, r, MAX_WAKED_READERS) == XorOverf(r) < FIELD
  {
    var low, high := r % MAX_WAKED_READERS, r >= MAX_WAKED_READERS;
    assert r == low + MAX_WAKED_READERS * Bit(high);
    SplitField(Xor, low, high, 0, true);
    WithZero(Xor, low);
  }

  lemma LowOnes(r: nat)
    requires r < MAX_WAKED_READERS
    ensures Bitwise(And, r, MAX_WAKED_READERS - 1) == r
  {
    Shifts(0);
    AllOnes(20, r);
  }

  /** READER_BITS keeps the reader field below READER_OVERF. */
  lemma AndWithBits(r: nat)
    requires r < FIELD
    ensures Bitwise(And, r, MAX_WAKED_READERS - 1) == r % MAX_WAKED_READERS
  {
    var low, high := r % MAX_WAKED_READERS, r >= MAX_WAKED_READERS;
    assert r == low + MAX_WAKED_READERS * Bit(high);
    SplitField(And, low, high, MAX_WAKED_READERS - 1, false);
    LowOnes(low);
  }

  /** Conversely, every 32-bit word is the encoding of its decoding. */
  lemma EncodeDecode(v: nat)
    requires v <= ALL_BITS
    ensures Fits(Decode(v)) && Encode(Decode(v)) == v
  {
    ByteOfPhase(v % 0x100);
    var f := v / 0x2000_0000;
    assert f < 8;
    FlagsOf(f);
    assert v / 0x100 / FIELD == f;
    assert v / 0x100 == v / 0x100 % FIELD + FIELD * f;
  }

  lemma FlagsOf(f: nat)
    requires f < 8
    ensures Bit(f % 2 == 1) + 2 * Bit(f / 2 % 2 == 1) + 4 * Bit(f / 4 % 2 == 1) == f
  {
  }

  lemma NibbleOf(n: nat)
    requires n < 0x10
    ensures Nibble(n % 2 == 1, n / 2 % 2 == 1, n / 4 % 2 == 1, n / 8 % 2 == 1) == n
  {
  }

  lemma LowOfByte(l: nat, h: nat, p: Phase)
    requires l < 0x10 && h < 0x10 && p == PhaseOf(l + 0x10 * h)
    ensures LowPhase(p) == l
  {
    HalvesOfByte(l, h);
    NibbleOf(l);
    var b := l + 0x10 * h;
    assert p.initialized == (l % 2 == 1) && p.initPanicked == (l / 2 % 2 == 1);
    assert p.initSkipped == (l / 4 % 2 == 1) && p.registered == (l / 8 % 2 == 1);
  }

  lemma HighOfByte(l: nat, h: nat, p: Phase)
    requires l < 0x10 && h < 0x10 && p == PhaseOf(l + 0x10 * h)
    ensures HighPhase(p) == h
  {
    HalvesOfByte(l, h);
    NibbleOf(h);
    var b := l + 0x10 * h;
    assert p.regPanicked == (h % 2 == 1) && p.regRefused == (h / 2 % 2 == 1);
    assert p.finalized == (h / 4 % 2 == 1) && p.finPanicked == (h / 8 % 2 == 1);
  }

  lemma ByteOfPhase(b: nat)
    requires b < 0x100
    ensures Bits(PhaseOf(b)) == b
  {
    var l, h, p := b % 0x10, b / 0x10, PhaseOf(b);
    assert b == l + 0x10 * h;
    LowOfByte(l, h, p);
    HighOfByte(l, h, p);
    BitsHalves(p);
  }

  // ---------- the words and masks of the source ----------

  /** `v op m` for a mask `m` given by its fields. */
  lemma OpMask(op: Op, v: nat, m: Word)
    requires v <= ALL_BITS && Fits(m)
    ensures var u := WordOp(op, Decode(v), m);
      Fits(u) && Bitwise(op, v, Encode(m)) == Encode(u) <= ALL_BITS && Decode(Encode(u)) == u
  {
    EncodeDecode(v);
    WordBitwise(op, Decode(v), m);
    DecodeEncode(WordOp(op, Decode(v), m));
  }

  const FLAG_LOCKED := Pure(EMPTY).(locked := true)
  const FLAG_RW := Pure(EMPTY).(rw := true)
  const FLAG_WW := Pure(EMPTY).(ww := true)

  lemma Masks()
    ensures Encode(FLAG_LOCKED) == LOCKED_BIT && Encode(FLAG_RW) == READ_WAITER_BIT
    ensures Encode(FLAG_WW) == WRITE_WAITER_BIT
    ensures Encode(Pure(EMPTY).(readers := 1)) == READER_UNITY
    ensures Encode(Pure(EMPTY).(readers := MAX_WAKED_READERS)) == READER_OVERF
    ensures Encode(Pure(EMPTY).(readers := MAX_WAKED_READERS - 1)) == READER_BITS
  {
  }

  lemma OrEffect(w: Word)
    ensures WordOp(Or, w, FLAG_LOCKED) == w.(locked := true)
    ensures WordOp(Or, w, FLAG_RW) == w.(rw := true) && WordOp(Or, w, FLAG_WW) == w.(ww := true)
  {
    WithZero(Or, w.readers);
  }

  lemma OrSetsFlags(v: nat)
    requires v <= ALL_BITS
    ensures Bitwise(Or, v, LOCKED_BIT) == Encode(Decode(v).(locked := true)) <= ALL_BITS
    ensures Bitwise(Or, v, READ_WAITER_BIT) == Encode(Decode(v).(rw := true)) <= ALL_BITS
    ensures Bitwise(Or, v, WRITE_WAITER_BIT) == Encode(Decode(v).(ww := true)) <= ALL_BITS
  {
    var w := Decode(v);
    Masks();
    OrEffect(w);
    OpMask(Or, v, FLAG_LOCKED);
    OpMask(Or, v, FLAG_RW);
    OpMask(Or, v, FLAG_WW);
  }

  const NOT_LOCKED := Word(FULL, FIELD - 1, false, true, true)
  const FULL := Phase(true, true, true, true, true, true, true, true)

  lemma FullPhase(p: Phase)
    ensures PhaseOp(And, p, FULL) == p
  {
  }

  lemma ClearEffect(w: Word)
    requires Fits(w)
    ensures WordOp(And, w, NOT_LOCKED) == w.(locked := false)
  {
    Shifts(0);
    AllOnes(21, w.readers);
    FullPhase(w.phase);
  }

  lemma ClearLocked(v: nat)
    requires v <= ALL_BITS
    ensures Bitwise(And, v, Complement(LOCKED_BIT)) == Encode(Decode(v).(locked := false)) <= ALL_BITS
  {
    var w := Decode(v);
    ClearEffect(w);
    assert Encode(NOT_LOCKED) == Complement(LOCKED_BIT);
    OpMask(And, v, NOT_LOCKED);
  }
}
