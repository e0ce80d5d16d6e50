/** The bit tests and the atomic updates of the lock word, as the source writes them, and the record
    predicates and updates of FutexProtocol they amount to (src/phase_locker/sync.rs:539-586). */
module LockBits {
  import opened Phases
  import opened FutexProtocol
  import opened Words

  const FIELD_BITS := 0x1FFF_FF00   // READER_OVERF | READER_BITS
  const WAITER_BITS := 0xC000_0000  // READ_WAITER_BIT | WRITE_WAITER_BIT
  const OWNED_BITS := 0x3FFF_FF00   // LOCKED_BIT | READER_BITS | READER_OVERF
  const BORROW_BITS := 0x2FFF_FF00  // LOCKED_BIT | READER_BITS, in unsync.rs

  predicate HasNoReadersBits(v: nat) { Bitwise(And, v, FIELD_BITS) == 0 }

  predicate HasReadersBits(v: nat) { Bitwise(And, v, FIELD_BITS) != 0 }

  predicate HasOneReaderBits(v: nat) { Bitwise(And, v, FIELD_BITS) == READER_UNITY }

  predicate HasReadersMaxBits(v: nat) { Bitwise(And, v, READER_BITS) == READER_BITS }

  predicate IsNotWriteLockedBits(v: nat) { Bitwise(And, v, LOCKED_BIT) == 0 }

  predicate HasWaitersBits(v: nat) { Bitwise(And, v, WAITER_BITS) != 0 }

  predicate HasNoWaitersBits(v: nat) { Bitwise(And, v, WAITER_BITS) == 0 }

  predicate IsWriteLockableBits(v: nat) {
    IsNotWriteLockedBits(v) && (HasReadersBits(v) || HasNoWaitersBits(v))
  }

  predicate IsReadLockableBits(v: nat) {
    (HasReadersBits(v) || (HasNoWaitersBits(v) && IsNotWriteLockedBits(v))) && !HasReadersMaxBits(v)
  }

  // ---------- masks that combine several constants ----------

  lemma OrWords(m: Word, n: Word, u: Word)
    requires Fits(m) && Fits(n) && WordOp(Or, m, n) == u
    ensures Bitwise(Or, Encode(m), Encode(n)) == Encode(u)
  {
    WordBitwise(Or, m, n);
  }

  const OVERF := Pure(EMPTY).(readers := MAX_WAKED_READERS)
  const UNITY := Pure(EMPTY).(readers := 1)
  const LOW_FIELD := Pure(EMPTY).(readers := MAX_WAKED_READERS - 1)
  const WHOLE_FIELD := Pure(EMPTY).(readers := FIELD - 1)
  const WAITERS := Pure(EMPTY).(rw := true, ww := true)

  lemma OrFields()
    ensures Bitwise(Or, MAX_WAKED_READERS, MAX_WAKED_READERS - 1) == FIELD - 1
    ensures Bitwise(Or, MAX_WAKED_READERS, 1) == MAX_WAKED_READERS + 1
    ensures forall r: nat :: Bitwise(Or, 0, r) == r && Bitwise(Or, r, 0) == r
  {
    WithZero(Or, MAX_WAKED_READERS - 1);
    WithZero(Or, 1);
    SplitField(Or, 0, true, MAX_WAKED_READERS - 1, false);
    SplitField(Or, 0, true, 1, false);
    forall r: nat
      ensures Bitwise(Or, 0, r) == r && Bitwise(Or, r, 0) == r
    {
      WithZero(Or, r);
    }
  }

  lemma MaskValues()
    ensures Encode(WHOLE_FIELD) == FIELD_BITS && Encode(WAITERS) == WAITER_BITS
    ensures Encode(WHOLE_FIELD.(locked := true)) == OWNED_BITS && Encode(LOW_FIELD.(locked := true)) == BORROW_BITS
  {
  }

  lemma CombinedMasks()
    ensures Bitwise(Or, READER_OVERF, READER_BITS) == FIELD_BITS
    ensures Bitwise(Or, READ_WAITER_BIT, WRITE_WAITER_BIT) == WAITER_BITS
    ensures Bitwise(Or, LOCKED_BIT, FIELD_BITS) == OWNED_BITS
    ensures Bitwise(Or, LOCKED_BIT, READER_BITS) == BORROW_BITS
  {
    OrFields();
    Masks();
    MaskValues();
    OrWords(OVERF, LOW_FIELD, WHOLE_FIELD);
    OrWords(FLAG_RW, FLAG_WW, WAITERS);
    OrWords(FLAG_LOCKED, WHOLE_FIELD, WHOLE_FIELD.(locked := true));
    OrWords(FLAG_LOCKED, LOW_FIELD, LOW_FIELD.(locked := true));
  }

  // ---------- bit tests ----------

  function Mask(m: nat, l: bool, rw: bool, ww: bool): Word { Word(EMPTY, m, l, rw, ww) }

  lemma AndRecord(w: Word, m: nat, l: bool, rw: bool, ww: bool)
    ensures WordOp(And, w, Mask(m, l, rw, ww))
      == Mask(Bitwise(And, w.readers, m), w.locked && l, w.rw && rw, w.ww && ww)
  {
  }

  lemma MaskValue(m: nat, l: bool, rw: bool, ww: bool)
    ensures Encode(Mask(m, l, rw, ww))
      == 0x100 * m + LOCKED_BIT * Bit(l) + READ_WAITER_BIT * Bit(rw) + WRITE_WAITER_BIT * Bit(ww)
  {
  }

  /** `v & m`, by fields. */
  lemma AndMask(v: nat, m: nat, l: bool, rw: bool, ww: bool)
    requires v <= ALL_BITS && m < FIELD
    ensures Bitwise(And, v, Encode(Mask(m, l, rw, ww)))
      == 0x100 * Bitwise(And, Decode(v).readers, m) + LOCKED_BIT * Bit(Decode(v).locked && l)
         + READ_WAITER_BIT * Bit(Decode(v).rw && rw) + WRITE_WAITER_BIT * Bit(Decode(v).ww && ww)
  {
    var w, k := Decode(v), Mask(m, l, rw, ww);
    OpMask(And, v, k);
    AndRecord(w, m, l, rw, ww);
    MaskValue(Bitwise(And, w.readers, m), w.locked && l, w.rw && rw, w.ww && ww);
  }

  lemma FieldUnderMasks(r: nat)
    requires r < FIELD
    ensures Bitwise(And, r, FIELD - 1) == r && Bitwise(And, r, 0) == 0
    ensures Bitwise(And, r, MAX_WAKED_READERS - 1) == r % MAX_WAKED_READERS
  {
    Shifts(0);
    AllOnes(21, r);
    AndWithBits(r);
    WithZero(And, r);
  }

  lemma WholeFieldTest(v: nat)
    requires v <= ALL_BITS
    ensures Bitwise(And, v, FIELD_BITS) == 0x100 * Decode(v).readers
  {
    FieldUnderMasks(Decode(v).readers);
    MaskValue(FIELD - 1, false, false, false);
    AndMask(v, FIELD - 1, false, false, false);
  }

  lemma LowFieldTest(v: nat)
    requires v <= ALL_BITS
    ensures Bitwise(And, v, READER_BITS) == 0x100 * (Decode(v).readers % MAX_WAKED_READERS)
  {
    FieldUnderMasks(Decode(v).readers);
    MaskValue(MAX_WAKED_READERS - 1, false, false, false);
    AndMask(v, MAX_WAKED_READERS - 1, false, false, false);
  }

  lemma FieldTests(v: nat)
    requires v <= ALL_BITS
    ensures Bitwise(And, v, FIELD_BITS) == 0x100 * Decode(v).readers
    ensures Bitwise(And, v, READER_BITS) == 0x100 * (Decode(v).readers % MAX_WAKED_READERS)
  {
    WholeFieldTest(v);
    LowFieldTest(v);
  }

  lemma OwnedTest(v: nat)
    requires v <= ALL_BITS
    ensures Bitwise(And, v, OWNED_BITS) == 0x100 * Decode(v).readers + LOCKED_BIT * Bit(Decode(v).locked)
  {
    FieldUnderMasks(Decode(v).readers);
    MaskValue(FIELD - 1, true, false, false);
    AndMask(v, FIELD - 1, true, false, false);
  }

  /** A test of flag bits alone. */
  lemma FlagMask(v: nat, l: bool, rw: bool, ww: bool)
    requires v <= ALL_BITS
    ensures Bitwise(And, v, LOCKED_BIT * Bit(l) + READ_WAITER_BIT * Bit(rw) + WRITE_WAITER_BIT * Bit(ww))
      == LOCKED_BIT * Bit(Decode(v).locked && l) + READ_WAITER_BIT * Bit(Decode(v).rw && rw)
         + WRITE_WAITER_BIT * Bit(Decode(v).ww && ww)
  {
    FieldUnderMasks(Decode(v).readers);
    MaskValue(0, l, rw, ww);
    AndMask(v, 0, l, rw, ww);
  }

  lemma FlagTests(v: nat)
    requires v <= ALL_BITS
    ensures Bitwise(And, v, LOCKED_BIT) == LOCKED_BIT * Bit(Decode(v).locked)
    ensures Bitwise(And, v, READ_WAITER_BIT) == READ_WAITER_BIT * Bit(Decode(v).rw)
    ensures Bitwise(And, v, WRITE_WAITER_BIT) == WRITE_WAITER_BIT * Bit(Decode(v).ww)
    ensures Bitwise(And, v, WAITER_BITS) == READ_WAITER_BIT * Bit(Decode(v).rw) + WRITE_WAITER_BIT * Bit(Decode(v).ww)
  {
    FlagMask(v, true, false, false);
    FlagMask(v, false, true, false);
    FlagMask(v, false, false, true);
    FlagMask(v, false, true, true);
  }

  lemma ReadWaiterTest(v: nat)
    requires v <= ALL_BITS
    ensures Bitwise(And, v, READ_WAITER_BIT) != 0 <==> Decode(v).rw
  {
    FlagTests(v);
  }

  lemma WaitersTest(v: nat)
    requires v <= ALL_BITS
    ensures HasWaitersBits(v) <==> HasWaiters(Decode(v))
    ensures HasNoWaitersBits(v) <==> !HasWaiters(Decode(v))
  {
    FlagTests(v);
  }

  /** The bit tests of the source are the predicates of the protocol. */
  lemma TestsAgree(v: nat)
    requires v <= ALL_BITS
    ensures var w := Decode(v);
      && (HasNoReadersBits(v) <==> w.readers == 0) && (HasReadersBits(v) <==> w.readers != 0)
      && (HasOneReaderBits(v) <==> w.readers == 1)
      && (HasReadersMaxBits(v) <==> ReadersMax(w))
      && (IsNotWriteLockedBits(v) <==> !w.locked)
      && (HasWaitersBits(v) <==> HasWaiters(w)) && (HasNoWaitersBits(v) <==> !HasWaiters(w))
      && (IsWriteLockableBits(v) <==> WriteLockable(w))
      && (IsReadLockableBits(v) <==> ReadLockable(w))
  {
    FieldTests(v);
    FlagTests(v);
  }

  // ---------- atomic updates ----------

  /** A compare-exchange of 32-bit words compares what the model compares. */
  lemma DecodeInjective(v: nat, x: nat)
    requires v <= ALL_BITS && x <= ALL_BITS
    ensures v == x <==> Decode(v) == Decode(x)
  {
    EncodeDecode(v);
    EncodeDecode(x);
  }

  lemma DecodeEncoded(v: nat, w: Word)
    requires Fits(w) && v == Encode(w)
    ensures v <= ALL_BITS && Decode(v) == w
  {
    DecodeEncode(w);
  }

  /** The word of a free lock in phase `p` is its byte. */
  lemma PhaseWord(p: Phase)
    ensures Bits(p) <= ALL_BITS && Decode(Bits(p)) == Pure(p)
  {
    assert Encode(Pure(p)) == Bits(p);
    DecodeEncode(Pure(p));
  }

  /** Setting one flag, `v | flag`, and clearing LOCKED_BIT, `v & !LOCKED_BIT`. */
  lemma SetFlags(v: nat)
    requires v <= ALL_BITS
    ensures Bitwise(Or, v, LOCKED_BIT) <= ALL_BITS && Decode(Bitwise(Or, v, LOCKED_BIT)) == Decode(v).(locked := true)
    ensures Bitwise(Or, v, READ_WAITER_BIT) <= ALL_BITS
    ensures Decode(Bitwise(Or, v, READ_WAITER_BIT)) == Decode(v).(rw := true)
    ensures Bitwise(Or, v, WRITE_WAITER_BIT) <= ALL_BITS
    ensures Decode(Bitwise(Or, v, WRITE_WAITER_BIT)) == Decode(v).(ww := true)
  {
    OrSetsFlags(v);
    DecodeEncoded(Bitwise(Or, v, LOCKED_BIT), Decode(v).(locked := true));
    DecodeEncoded(Bitwise(Or, v, READ_WAITER_BIT), Decode(v).(rw := true));
    DecodeEncoded(Bitwise(Or, v, WRITE_WAITER_BIT), Decode(v).(ww := true));
  }

  lemma UnsetLocked(v: nat)
    requires v <= ALL_BITS
    ensures Bitwise(And, v, Complement(LOCKED_BIT)) <= ALL_BITS
    ensures Decode(Bitwise(And, v, Complement(LOCKED_BIT))) == Decode(v).(locked := false)
  {
    ClearLocked(v);
    DecodeEncoded(Bitwise(And, v, Complement(LOCKED_BIT)), Decode(v).(locked := false));
  }

  /** `fetch_xor`, by fields. */
  lemma XorMask(v: nat, m: Word, u: Word)
    requires v <= ALL_BITS && Fits(m) && WordOp(Xor, Decode(v), m) == u
    ensures Bitwise(Xor, v, Encode(m)) <= ALL_BITS && Decode(Bitwise(Xor, v, Encode(m))) == u
  {
    OpMask(Xor, v, m);
  }

  lemma FieldShift(v: nat, u: nat, k: int)
    requires 0 <= v / 0x100 % FIELD + k < FIELD && u == v + 0x100 * k
    ensures u % 0x100 == v % 0x100 && u / 0x2000_0000 == v / 0x2000_0000
    ensures u / 0x100 % FIELD == v / 0x100 % FIELD + k
  {
    var q, p := v / 0x100, v % 0x100;
    var r, f := q % FIELD, q / FIELD;
    assert v == p + 0x100 * (r + FIELD * f);
    Fields(p, r, f);
    Fields(p, r + k, f);
  }

  /** Adding `k` units to a word whose field has room for them. */
  lemma MoveField(v: nat, u: nat, k: int)
    requires v <= ALL_BITS && 0 <= Decode(v).readers + k < FIELD && u == v + READER_UNITY * k
    ensures u <= ALL_BITS && Decode(u) == Decode(v).(readers := Decode(v).readers + k)
  {
    FieldShift(v, u, k);
  }

  /** `cur + READER_UNITY` of the compare-exchanges stays inside the reader field unless the field is full. */
  lemma AddUnity(v: nat)
    requires v <= ALL_BITS && Decode(v).readers + 1 < FIELD
    ensures v + READER_UNITY <= ALL_BITS && Decode(v + READER_UNITY) == Decode(v).(readers := Decode(v).readers + 1)
  {
    MoveField(v, v + READER_UNITY, 1);
  }

  lemma WrapExact(a: nat, b: nat)
    requires b <= a <= ALL_BITS
    ensures WrapSub(a, b) == a - b
  {
  }

  lemma EnoughUnits(v: nat)
    ensures READER_UNITY * Decode(v).readers <= v
  {
    assert v / 0x100 % FIELD <= v / 0x100;
  }

  /** `fetch_sub(READER_UNITY * k)` borrows nothing from the bits above as long as there are `k` units. */
  lemma SubUnits(v: nat, k: nat)
    requires v <= ALL_BITS && k <= Decode(v).readers
    ensures READER_UNITY * k <= v && WrapSub(v, READER_UNITY * k) == v - READER_UNITY * k
    ensures Decode(v - READER_UNITY * k) == Decode(v).(readers := Decode(v).readers - k)
  {
    EnoughUnits(v);
    WrapExact(v, READER_UNITY * k);
    MoveField(v, v - READER_UNITY * k, 0 - k);
  }

  // ---------- the xors of the source ----------

  /** `(init ^ on_unlock).bits() | LOCKED_BIT`, sync.rs:423. */
  function UnlockMask(init: Phase, onUnlock: Phase): nat {
    Bitwise(Or, Bitwise(Xor, Bits(init), Bits(onUnlock)), LOCKED_BIT)
  }

  /** `(cur ^ on_unlock).bits() | LOCKED_BIT | READER_UNITY`, sync.rs:311. */
  function ConvertMask(cur: Phase, onUnlock: Phase): nat {
    Bitwise(Or, UnlockMask(cur, onUnlock), READER_UNITY)
  }

  /** `WRITE_WAITER_BIT | LOCKED_BIT`, sync.rs:339 and 381. */
  function HandMask(): nat { Bitwise(Or, WRITE_WAITER_BIT, LOCKED_BIT) }

  /** `READ_WAITER_BIT | to_unactivate | READER_OVERF | rb`, sync.rs:592-595. */
  function WakeMask(toUnactivate: nat, rb: nat): nat {
    Bitwise(Or, Bitwise(Or, Bitwise(Or, READ_WAITER_BIT, toUnactivate), READER_OVERF), rb)
  }

  lemma XorByMask(v: nat, mask: nat, k: Word)
    requires v <= ALL_BITS && Fits(k) && mask == Encode(k)
    ensures var w := Decode(v);
      Bitwise(Xor, v, mask) <= ALL_BITS && Decode(Bitwise(Xor, v, mask))
      == Word(Difference(w.phase, k.phase), Bitwise(Xor, w.readers, k.readers),
              w.locked != k.locked, w.rw != k.rw, w.ww != k.ww)
  {
    XorMask(v, k, WordOp(Xor, Decode(v), k));
  }

  lemma OrPhaseMask(d: Phase, k: Word)
    requires Fits(k) && k.phase == EMPTY
    ensures Bitwise(Or, Bits(d), Encode(k)) == Encode(k.(phase := d))
  {
    OrFields();
    assert Encode(Pure(d)) == Bits(d);
    OrWords(Pure(d), k, k.(phase := d));
  }

  lemma UnlockMaskIs(init: Phase, onUnlock: Phase)
    ensures UnlockMask(init, onUnlock) == Encode(Pure(Difference(init, onUnlock)).(locked := true))
  {
    PhaseBitwise(Xor, init, onUnlock);
    Masks();
    OrPhaseMask(Difference(init, onUnlock), FLAG_LOCKED);
  }

  /** The xor of `Drop for Lock` is the record update `Unlocked`. */
  lemma UnlockXor(v: nat, init: Phase, onUnlock: Phase)
    requires v <= ALL_BITS
    ensures var u := Bitwise(Xor, v, UnlockMask(init, onUnlock));
      u <= ALL_BITS && Decode(u) == Unlocked(Decode(v), init, onUnlock)
  {
    UnlockMaskIs(init, onUnlock);
    WithZero(Xor, Decode(v).readers);
    XorByMask(v, UnlockMask(init, onUnlock), Pure(Difference(init, onUnlock)).(locked := true));
  }

  lemma ConvertMaskIs(cur: Phase, onUnlock: Phase)
    ensures ConvertMask(cur, onUnlock) == Encode(Pure(Difference(cur, onUnlock)).(locked := true, readers := 1))
  {
    UnlockMaskIs(cur, onUnlock);
    Masks();
    OrFields();
    var d := Difference(cur, onUnlock);
    var k := Pure(d).(locked := true);
    OrPhases(d);
    OrWords(k, UNITY, k.(readers := 1));
  }

  lemma OrPhases(d: Phase)
    ensures PhaseOp(Or, d, EMPTY) == d
  {
  }

  /** The xor of `into_read_lock`. */
  lemma ConvertXorBits(v: nat, cur: Phase, onUnlock: Phase)
    requires v <= ALL_BITS
    ensures var u := Bitwise(Xor, v, ConvertMask(cur, onUnlock)); var w := Decode(v);
      u <= ALL_BITS && Decode(u) == Unlocked(w, cur, onUnlock).(readers := XorUnity(w.readers))
  {
    ConvertMaskIs(cur, onUnlock);
    XorWithUnity(Decode(v).readers);
    XorByMask(v, ConvertMask(cur, onUnlock), Pure(Difference(cur, onUnlock)).(locked := true, readers := 1));
  }

  lemma SamePhase(d: Phase)
    ensures Difference(d, EMPTY) == d
  {
  }

  /** The xor that takes the lock for a writer to be woken. */
  lemma HandXorBits(v: nat)
    requires v <= ALL_BITS
    ensures var u := Bitwise(Xor, v, HandMask()); var w := Decode(v);
      u <= ALL_BITS && Decode(u) == w.(ww := !w.ww, locked := !w.locked)
  {
    Masks();
    OrFields();
    var k := FLAG_WW.(locked := true);
    OrWords(FLAG_WW, FLAG_LOCKED, k);
    WithZero(Xor, Decode(v).readers);
    SamePhase(Decode(v).phase);
    XorByMask(v, HandMask(), k);
  }

  lemma WakeMaskIs(unactivate: bool, converting: bool)
    ensures WakeMask(if unactivate then LOCKED_BIT else 0, if converting then 0 else READER_UNITY)
      == Encode(Mask(if converting then MAX_WAKED_READERS else MAX_WAKED_READERS + 1, unactivate, true, false))
  {
    Masks();
    OrFields();
    assert Encode(Pure(EMPTY)) == 0;
    var k := Mask(0, unactivate, false, false);
    OrWords(FLAG_RW, k, k.(rw := true));
    OrWords(k.(rw := true), OVERF, k.(rw := true, readers := MAX_WAKED_READERS));
    var n := k.(rw := true, readers := MAX_WAKED_READERS);
    if converting { OrWords(n, Pure(EMPTY), n); } else { OrWords(n, UNITY, n.(readers := MAX_WAKED_READERS + 1)); }
  }

  lemma XorBothParts(low: nat, high: bool)
    requires low < MAX_WAKED_READERS
    ensures XorOverf(XorUnity(low + MAX_WAKED_READERS * Bit(high))) == XorUnity(low) + MAX_WAKED_READERS * Bit(!high)
  {
    var u := XorUnity(low);
    assert u < MAX_WAKED_READERS;
    assert XorUnity(low + MAX_WAKED_READERS * Bit(high)) == u + MAX_WAKED_READERS * Bit(high);
  }

  lemma TwoParts(r: nat) returns (low: nat, high: bool)
    requires r < FIELD
    ensures low < MAX_WAKED_READERS && r == low + MAX_WAKED_READERS * Bit(high)
  {
    high := r >= MAX_WAKED_READERS;
    low := if high then r - MAX_WAKED_READERS else r;
  }

  lemma XorWithBoth(r: nat)
    requires r < FIELD
    ensures Bitwise(Xor, r, MAX_WAKED_READERS + 1) == XorOverf(XorUnity(r))
  {
    var low, high := TwoParts(r);
    XorBothParts(low, high);
    SplitField(Xor, low, high, 1, true);
    XorWithUnity(low);
  }

  /** The xor of `wake_readers`. */
  lemma WakeXorBits(v: nat, unactivate: bool, converting: bool)
    requires v <= ALL_BITS
    ensures var u := Bitwise(Xor, v, WakeMask(if unactivate then LOCKED_BIT else 0, if converting then 0 else READER_UNITY));
      var w := Decode(v);
      u <= ALL_BITS && Decode(u) == w.(rw := !w.rw, locked := w.locked != unactivate,
        readers := XorOverf(if converting then w.readers else XorUnity(w.readers)))
  {
    WakeMaskIs(unactivate, converting);
    var k := Mask(if converting then MAX_WAKED_READERS else MAX_WAKED_READERS + 1, unactivate, true, false);
    XorWithOverf(Decode(v).readers);
    XorWithBoth(Decode(v).readers);
    SamePhase(Decode(v).phase);
    XorByMask(v, Encode(k), k);
  }

  lemma UnityTest(v: nat)
    requires v <= ALL_BITS && Decode(v).readers % 2 == 0
    ensures Bitwise(And, v, READER_UNITY) == 0
  {
    var r := Decode(v).readers;
    HalfBitwise(And, r, 1);
    WithZero(And, r / 2);
    MaskValue(1, false, false, false);
    AndMask(v, 1, false, false, false);
  }

  /** The assertions of `wake_readers`, sync.rs:596-601, on a word with no odd reader. */
  lemma WakeAsserts(v: nat, unactivate: bool)
    requires v <= ALL_BITS && Decode(v).readers % 2 == 0 && Decode(v).locked == unactivate
    ensures var u := if unactivate then LOCKED_BIT else 0;
      && Bitwise(And, v, u) == u && Bitwise(And, v, READER_UNITY) != READER_UNITY
      && Bitwise(And, Bitwise(Xor, v, u), LOCKED_BIT) == 0
  {
    UnityTest(v);
    FlagTests(v);
    WithZero(And, v);
    WithZero(Xor, v);
    if unactivate {
      Masks();
      XorByMask(v, LOCKED_BIT, FLAG_LOCKED);
      FlagTests(Bitwise(Xor, v, LOCKED_BIT));
    }
  }

  // ---------- words of a free lock ----------

  /** The word that the optimistic attempt with `nature` wants to write. */
  function Hinted(nature: LockNature, v: nat): nat {
    match nature
    case NoLock => v
    case Write => Bitwise(Or, v, LOCKED_BIT)
    case Read => v + READER_UNITY
  }

  lemma HintedWord(hint: Phase, nature: LockNature)
    ensures Hinted(nature, Bits(hint)) <= ALL_BITS
    ensures Decode(Hinted(nature, Bits(hint))) == match nature
      case NoLock => Pure(hint)
      case Write => Pure(hint).(locked := true)
      case Read => Pure(hint).(readers := 1)
  {
    PhaseWord(hint);
    match nature {
      case NoLock =>
      case Write => SetFlags(Bits(hint));
      case Read => OneReader(hint, Bits(hint));
    }
  }

  lemma OneReader(hint: Phase, v: nat)
    requires v <= ALL_BITS && Decode(v) == Pure(hint)
    ensures v + READER_UNITY <= ALL_BITS && Decode(v + READER_UNITY) == Pure(hint).(readers := 1)
  {
    AddUnity(v);
  }

  /** `Phase::from_bits`: None if a bit that is no phase flag is set. */
  function FromBits(v: nat): (p: Option<Phase>)
    ensures v < 0x100 ==> p.Some? && Bits(p.value) == v
    ensures v >= 0x100 ==> p == None
  {
    if v < 0x100 then ByteOfPhase(v); Some(PhaseOf(v)) else None
  }

  lemma PureWord(v: nat, p: Phase)
    requires v <= ALL_BITS && Decode(v) == Pure(p)
    ensures FromBits(v) == Some(p)
  {
    PhaseWord(p);
    DecodeInjective(v, Bits(p));
    BitsInverse(p);
  }
}
