/** The life-cycle phase of a lazy object (src/lib.rs:616-638).

    The source packs eight flags into the low byte of the lock word.  Here a phase is the record of
    those flags, and `Bits` is the byte the source stores.
 */
module Phases {

  datatype Phase = Phase(
    initialized: bool,
    initPanicked: bool,
    initSkipped: bool,
    registered: bool,
    regPanicked: bool,
    regRefused: bool,
    finalized: bool,
    finPanicked: bool)

  const EMPTY := Phase(false, false, false, false, false, false, false, false)
  const INITIALIZED := EMPTY.(initialized := true)
  const INITIALIZATION_PANICKED := EMPTY.(initPanicked := true)
  const INITIALIZATION_SKIPED := EMPTY.(initSkipped := true)
  const REGISTERED := EMPTY.(registered := true)
  const REGISTRATION_PANICKED := EMPTY.(regPanicked := true)
  const REGISTRATION_REFUSED := EMPTY.(regRefused := true)
  const FINALIZED := EMPTY.(finalized := true)
  const FINALIZATION_PANICKED := EMPTY.(finPanicked := true)

  /** Flag-wise combination: `|`, `&`, `^` and `& !` of the bit-flag type. */
  function Union(p: Phase, q: Phase): Phase {
    Phase(p.initialized || q.initialized, p.initPanicked || q.initPanicked, p.initSkipped || q.initSkipped,
          p.registered || q.registered, p.regPanicked || q.regPanicked, p.regRefused || q.regRefused,
          p.finalized || q.finalized, p.finPanicked || q.finPanicked)
  }

  function Common(p: Phase, q: Phase): Phase {
    Phase(p.initialized && q.initialized, p.initPanicked && q.initPanicked, p.initSkipped && q.initSkipped,
          p.registered && q.registered, p.regPanicked && q.regPanicked, p.regRefused && q.regRefused,
          p.finalized && q.finalized, p.finPanicked && q.finPanicked)
  }

  function Difference(p: Phase, q: Phase): Phase {
    Phase(p.initialized != q.initialized, p.initPanicked != q.initPanicked, p.initSkipped != q.initSkipped,
          p.registered != q.registered, p.regPanicked != q.regPanicked, p.regRefused != q.regRefused,
          p.finalized != q.finalized, p.finPanicked != q.finPanicked)
  }

  function Without(p: Phase, q: Phase): Phase {
    Phase(p.initialized && !q.initialized, p.initPanicked && !q.initPanicked, p.initSkipped && !q.initSkipped,
          p.registered && !q.registered, p.regPanicked && !q.regPanicked, p.regRefused && !q.regRefused,
          p.finalized && !q.finalized, p.finPanicked && !q.finPanicked)
  }

  predicate Intersects(p: Phase, q: Phase) {
    Common(p, q) != EMPTY
  }

  /** What every phase change of a lazy object keeps: INITIALIZED is never cleared and a phase that
      left the empty phase never returns to it.  Module LazyInit proves it of the sequentializer. */
  predicate Advances(p: Phase, q: Phase) {
    && (p.initialized ==> q.initialized)
    && (p != EMPTY ==> q != EMPTY)
  }

  function Bit(b: bool): nat { if b then 1 else 0 }

  /** The byte of the lock word that holds `p`. */
  function Bits(p: Phase): nat {
    Bit(p.initialized) + 2 * Bit(p.initPanicked) + 4 * Bit(p.initSkipped) + 8 * Bit(p.registered)
    + 16 * Bit(p.regPanicked) + 32 * Bit(p.regRefused) + 64 * Bit(p.finalized) + 128 * Bit(p.finPanicked)
  }

  /** The flags are the bits that src/lib.rs:616-638 gives them. */
  lemma FlagBits()
    ensures Bits(EMPTY) == 0 && Bits(INITIALIZED) == 0x01 && Bits(INITIALIZATION_PANICKED) == 0x02
    ensures Bits(INITIALIZATION_SKIPED) == 0x04 && Bits(REGISTERED) == 0x08 && Bits(REGISTRATION_PANICKED) == 0x10
    ensures Bits(REGISTRATION_REFUSED) == 0x20 && Bits(FINALIZED) == 0x40 && Bits(FINALIZATION_PANICKED) == 0x80
  {
  }
}
