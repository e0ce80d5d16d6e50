/** The imperative side of src/lazy_sequentializer.rs: what it does through a write guard, and its entry
    points on an object whose locker grants the lock they ask for. */
module LazySequentializer {
  import opened Phases
  import opened FutexProtocol
  import opened LazyPolicies
  import opened LazyInit
  import opened LazyOutcomes

  /** The plans made for the phase after unlocking never take the object back. */
  ghost predicate PlansAdvance(from: Phase, plans: seq<Phase>) {
    forall k: nat :: k < |plans| ==> Advances(from, plans[k])
  }

  /** A write guard: `on_unlock` is what the phase becomes when it is dropped, also by unwinding. */
  class Guard {
    var onUnlock: Phase
    ghost var plans: seq<Phase>

    constructor (p: Phase)
      ensures onUnlock == p && plans == []
    {
      onUnlock := p;
      plans := [];
    }

    method SetPhase(p: Phase)
      modifies this
      ensures onUnlock == p && plans == old(plans) + [p]
    {
      onUnlock := p;
      plans := plans + [p];
    }

    /** `PhaseGuard::transition`, sync_spinning.rs:80-91: the plan for a panic is made before the closure
        runs, the plan for success after it returned. */
    method Transition(closure: Outcome, onSuccess: Phase, onPanic: Phase) returns (unwinds: bool)
      modifies this
      ensures unwinds <==> closure.Panics?
      ensures onUnlock == if closure.Panics? then onPanic else onSuccess
      ensures plans == old(plans) + if closure.Panics? then [onPanic] else [onPanic, onSuccess]
    {
      SetPhase(onPanic);
      if closure.Panics? { return true; }
      SetPhase(onSuccess);
      return false;
    }
  }

  /** What an attempt leaves behind, by stages: registration first, then initialization. */
  lemma StageOne(cur: Phase, reg: Reply)
    requires cur == EMPTY
    ensures RegFlags(RegFlag(reg)) == RegFlag(reg)
    ensures Union(REGISTRATION_PANICKED, INITIALIZATION_SKIPED) == Union(RegFlag(PanickedReg), INITIALIZATION_SKIPED)
    ensures Intersects(RegFlag(reg), REGISTERED) <==> reg.Accepted?
  {
  }

  lemma StageTwo(tol: Tolerance, cur: Phase)
    requires Known(tol, cur) && !cur.initialized
    ensures Without(Without(Without(cur, INITIALIZED), INITIALIZATION_PANICKED), INITIALIZATION_SKIPED) == RegFlags(cur)
    ensures Intersects(cur, REGISTERED) <==> cur.registered
    ensures cur != EMPTY && !cur.registered && !tol.finalRegistrationFailure ==>
      Union(cur, INITIALIZATION_SKIPED) == Union(RegFlags(cur), INITIALIZATION_SKIPED)
    ensures !Intersects(cur, Union(FINALIZED, FINALIZATION_PANICKED)) && !Intersects(cur, INITIALIZED)
  {
  }

  lemma BeforeInit(p: Phase)
    requires p == RegFlags(p)
    ensures Without(Without(Without(p, INITIALIZED), INITIALIZATION_PANICKED), INITIALIZATION_SKIPED) == p
    ensures Union(Union(p, INITIALIZATION_PANICKED), INITIALIZATION_SKIPED) == Union(p, FAILED)
  {
  }

  lemma UnionAdvances(cur: Phase, flags: Phase, more: Phase)
    requires !cur.initialized && (flags != EMPTY || more != EMPTY)
    ensures Advances(cur, Union(flags, more))
  {
  }

  /** The `before_init` of `lazy_initialization`, lazy_sequentializer.rs:81-88 and 101-108. */
  function BeforeInitOf(tol: Tolerance, p: Phase): Phase {
    if tol.initFailure then Without(Without(Without(p, INITIALIZED), INITIALIZATION_PANICKED), INITIALIZATION_SKIPED)
    else p
  }

  /** The two initialization branches, lazy_sequentializer.rs:80-99 and 100-119. */
  method InitializationStage(g: Guard, tol: Tolerance, finished: Phase, init: Outcome, ghost cur: Phase)
    returns (unwinds: bool)
    requires !cur.initialized && BeforeInitOf(tol, finished) == RegFlags(finished) != EMPTY
    modifies g
    ensures g.onUnlock == Union(RegFlags(finished), Stage(init)) && (unwinds <==> init.Panics?)
    ensures old(g.plans) <= g.plans && PlansAdvance(cur, g.plans[|old(g.plans)|..])
  {
    var before := BeforeInitOf(tol, finished);
    BeforeInit(RegFlags(finished));
    UnionAdvances(cur, before, INITIALIZED);
    UnionAdvances(cur, before, FAILED);
    unwinds := g.Transition(init, Union(before, INITIALIZED),
      Union(Union(before, INITIALIZATION_PANICKED), INITIALIZATION_SKIPED));
  }

  /** `lazy_initialization`, lazy_sequentializer.rs:49-126, with its debug assertions. */
  method LazyInitialization(g: Guard, tol: Tolerance, reg: Reply, init: Outcome)
    returns (regRan: bool, initRan: bool, unwinds: bool)
    requires Known(tol, g.onUnlock) && ShallInit(tol, g.onUnlock)
    modifies g
    ensures Attempted(g.onUnlock, regRan, initRan, unwinds) == Attempt(tol, old(g.onUnlock), reg, init)
    ensures AttemptMeans(tol, old(g.onUnlock), reg, init, Attempted(g.onUnlock, regRan, initRan, unwinds))
    ensures old(g.plans) <= g.plans && PlansAdvance(old(g.onUnlock), g.plans[|old(g.plans)|..])
  {
    var cur := g.onUnlock;
    ShallInitMeans(tol, cur);
    AttemptOutcome(tol, cur, reg, init);
    StageTwo(tol, cur);
    assert !Intersects(cur, Union(FINALIZED, FINALIZATION_PANICKED));
    assert !Intersects(cur, INITIALIZED);
    regRan, initRan := false, false;
    var finished: Phase;
    if !tol.initFailure || cur == EMPTY {
      assert cur == EMPTY;
      StageOne(cur, reg);
      regRan := true;
      unwinds := g.Transition(if reg.PanickedReg? then Panics else Returns, cur,
        Union(REGISTRATION_PANICKED, INITIALIZATION_SKIPED));
      if unwinds { return; }
      finished := if reg.Accepted? then REGISTERED else REGISTRATION_REFUSED;
      BeforeInit(finished);
    } else {
      finished := cur;
    }
    if Intersects(finished, REGISTERED) {
      initRan := true;
      unwinds := InitializationStage(g, tol, finished, init, cur);
    } else if tol.finalRegistrationFailure {
      initRan := true;
      unwinds := InitializationStage(g, tol, finished, init, cur);
    } else {
      UnionAdvances(cur, finished, INITIALIZATION_SKIPED);
      g.SetPhase(Union(finished, INITIALIZATION_SKIPED));
      unwinds := false;
    }
  }

  /** `lazy_finalization`, lazy_sequentializer.rs:128-136. */
  method LazyFinalization(g: Guard, fin: Outcome) returns (unwinds: bool)
    modifies g
    ensures g.onUnlock == FinalizedPhase(old(g.onUnlock), fin) && (unwinds <==> fin.Panics?)
    ensures g.onUnlock == old(g.onUnlock).(finalized := old(g.onUnlock.finalized) || !unwinds,
                                           finPanicked := old(g.onUnlock.finPanicked) || unwinds)
    ensures old(g.plans) <= g.plans && PlansAdvance(old(g.onUnlock), g.plans[|old(g.plans)|..])
  {
    var cur := g.onUnlock;
    unwinds := g.Transition(fin, Union(cur, FINALIZED), Union(cur, FINALIZATION_PANICKED));
  }

  /** `lazy_initialization_only`, lazy_sequentializer.rs:12-25. */
  method LazyInitializationOnly(g: Guard, init: Outcome) returns (unwinds: bool)
    requires !g.onUnlock.initialized
    modifies g
    ensures g.onUnlock == (if init.Returns? then INITIALIZED else FAILED) && (unwinds <==> init.Panics?)
    ensures old(g.plans) <= g.plans && PlansAdvance(old(g.onUnlock), g.plans[|old(g.plans)|..])
  {
    var cur := EMPTY;
    unwinds := g.Transition(init, Union(cur, INITIALIZED),
      Union(Union(cur, INITIALIZATION_PANICKED), INITIALIZATION_SKIPED));
  }

  // ---------- the closures that choose the lock ----------

  /** `how` of `init`, lazy_sequentializer.rs:406-413 and 613-620. */
  function InitHow(tol: Tolerance): Phase -> LockNature { p => if ShallInit(tol, p) then Write else NoLock }

  /** `how` of the read-guard methods, lazy_sequentializer.rs:438-445, 493-500, 644-651 and 700-707. */
  function ReadHow(tol: Tolerance): Phase -> LockNature { p => if ShallInit(tol, p) then Write else Read }

  /** `how` of the write-guard methods, lazy_sequentializer.rs:465, 522, 672 and 726. */
  function WriteHow(): Phase -> LockNature { _ => Write }

  /** `how` of `finalize_callback`, lazy_sequentializer.rs:545-551. */
  function FinalHow(): Phase -> LockNature { p => if Intersects(p, INITIALIZED) then Write else NoLock }

  /** The lockers need `how` to be stable; the closures of the sequentializer are. */
  lemma ClosuresAreStable(tol: Tolerance)
    ensures Stable(InitHow(tol)) && Stable(ReadHow(tol)) && Stable(WriteHow()) && Stable(FinalHow())
  {
    forall p, q | ReadHow(tol)(p).Read? && Advances(p, q)
      ensures ReadHow(tol)(q).Read?
    {
      ShallInitMeans(tol, p);
      ShallInitMeans(tol, q);
    }
  }

  // ---------- the entry points ----------

  /** What a caller gets: the phase it was told or holds a guard of, nothing (the lock is busy), or a panic. */
  datatype Result = Told(phase: Phase) | BusyLock | Unwinding

  /** An object that registers its finalization.  Each method is one call; the lock it takes is granted
      under the present phase, with the nature that `how` gives that phase. */
  class LazyObject {
    const tol: Tolerance
    var phase: Phase
    ghost var h: History

    ghost predicate Valid()
      reads this
    {
      HistoryOk(tol, h) && h.phase == phase
    }

    constructor (tol: Tolerance)
      ensures Valid() && h == UNUSED && this.tol == tol
    {
      this.tol := tol;
      phase := EMPTY;
      h := UNUSED;
    }

    /** What follows a granted write lock, up to the end of the guard. */
    method Attempts(reg: Reply, init: Outcome) returns (r: Result)
      requires Valid() && ShallInit(tol, phase)
      modifies this
      ensures Valid() && h == Visit(tol, old(h), Access(reg, init))
      ensures r == if ReturnsNormally(tol, old(h), Access(reg, init)) then Told(phase) else Unwinding
    {
      VisitOk(tol, h, Access(reg, init));
      var g := new Guard(phase);
      var regRan, initRan, unwinds := LazyInitialization(g, tol, reg, init);
      phase := g.onUnlock;
      h := Visit(tol, h, Access(reg, init));
      r := if unwinds then Unwinding else Told(g.onUnlock);
    }

    /** lazy_sequentializer.rs:396-425.  A lock call never answers Read to a `how` that never does. */
    method Init(reg: Reply, init: Outcome) returns (r: Result)
      requires Valid()
      modifies this
      ensures Valid() && h == Visit(tol, old(h), Access(reg, init))
      ensures r == if ReturnsNormally(tol, old(h), Access(reg, init)) then Told(phase) else Unwinding
    {
      match InitHow(tol)(phase) {
        case NoLock => r := Told(phase);
        case Write => r := Attempts(reg, init);
        case Read => assert false;
      }
    }

    /** lazy_sequentializer.rs:428-457; the arm for None is `unreachable_unchecked`. */
    method InitThenReadGuard(reg: Reply, init: Outcome) returns (r: Result)
      requires Valid()
      modifies this
      ensures Valid() && h == Visit(tol, old(h), Access(reg, init))
      ensures r == if ReturnsNormally(tol, old(h), Access(reg, init)) then Told(phase) else Unwinding
    {
      match ReadHow(tol)(phase) {
        case Read => r := Told(phase);
        case Write => r := Attempts(reg, init);
        case NoLock => assert false;
      }
    }

    /** lazy_sequentializer.rs:459-479: the policy is asked under the lock. */
    method InitThenWriteGuard(reg: Reply, init: Outcome) returns (r: Result)
      requires Valid()
      modifies this
      ensures Valid() && h == Visit(tol, old(h), Access(reg, init))
      ensures r == if ReturnsNormally(tol, old(h), Access(reg, init)) then Told(phase) else Unwinding
    {
      match WriteHow()(phase) {
        case Write =>
          if ShallInit(tol, phase) {
            r := Attempts(reg, init);
          } else {
            r := Told(phase);
          }
        case Read => assert false;
        case NoLock => assert false;
      }
    }

    /** lazy_sequentializer.rs:482-539: with the lock `busy` nothing happens. */
    method TryInitThenGuard(busy: bool, write: bool, reg: Reply, init: Outcome) returns (r: Result)
      requires Valid()
      modifies this
      ensures Valid() && h == if busy then old(h) else Visit(tol, old(h), Access(reg, init))
      ensures r == if busy then BusyLock
        else if ReturnsNormally(tol, old(h), Access(reg, init)) then Told(phase) else Unwinding
    {
      if busy { return BusyLock; }
      if write {
        r := InitThenWriteGuard(reg, init);
      } else {
        r := InitThenReadGuard(reg, init);
      }
    }

    /** lazy_sequentializer.rs:542-569; its debug assertion holds on the first call. */
    method FinalizeCallback(fin: Outcome)
      requires Valid()
      modifies this
      ensures Valid() && h == Visit(tol, old(h), Finalization(fin))
      ensures phase == if !old(phase.initialized) then old(phase)
        else if fin.Returns? then old(phase).(finalized := true) else old(phase).(finPanicked := true)
      ensures old(h.finCalls) == 0 ==> old(Common(phase, Union(FINALIZED, FINALIZATION_PANICKED))) == EMPTY
    {
      VisitOk(tol, h, Finalization(fin));
      InitializedFlag(phase);
      FinalizedFlags(phase);
      match FinalHow()(phase) {
        case NoLock => return;
        case Write =>
          var g := new Guard(phase);
          var unwinds := LazyFinalization(g, fin);
          phase := g.onUnlock;
          h := Visit(tol, h, Finalization(fin));
        case Read => assert false;
      }
    }
  }

  /** An object without finalization: `init` and the guard methods through the lock, `init_unique` by
      exclusive access. */
  class LazyOnly {
    const tol: Tolerance
    var phase: Phase
    ghost var h: History

    ghost predicate Valid()
      reads this
    {
      OnlyOk(tol, h) && h.phase == phase
    }

    constructor (tol: Tolerance)
      ensures Valid() && h == UNUSED && this.tol == tol
    {
      this.tol := tol;
      phase := EMPTY;
      h := UNUSED;
    }

    /** lazy_sequentializer.rs:604-632. */
    method Init(init: Outcome) returns (r: Result)
      requires Valid()
      modifies this
      ensures Valid() && h == VisitOnly(tol, old(h), init)
      ensures r == if init.Panics? && ShallInit(tol, old(phase)) then Unwinding else Told(phase)
    {
      VisitOnlyOk(tol, h, init);
      match InitHow(tol)(phase) {
        case NoLock => r := Told(phase);
        case Write =>
          ShallInitMeans(tol, phase);
          var g := new Guard(phase);
          var unwinds := LazyInitializationOnly(g, init);
          phase := g.onUnlock;
          h := VisitOnly(tol, h, init);
          r := if unwinds then Unwinding else Told(g.onUnlock);
        case Read => assert false;
      }
    }

    /** `MutPhaseLocker::transition` of the two synchronized lockers, sync.rs:609-638: a drop guard writes
        the phase of a panic while it unwinds. */
    method SyncTransition(closure: Outcome, onSuccess: Phase, onPanic: Phase) returns (unwinds: bool)
      modifies `phase
      ensures unwinds <==> closure.Panics?
      ensures phase == if closure.Panics? then onPanic else onSuccess
    {
      if closure.Panics? {
        phase := onPanic;
        return true;
      }
      phase := onSuccess;
      return false;
    }

    /** The same of the unsync locker, unsync.rs:170-175: the phase of a panic is written beforehand. */
    method UnSyncTransition(closure: Outcome, onSuccess: Phase, onPanic: Phase) returns (unwinds: bool)
      modifies `phase
      ensures unwinds <==> closure.Panics?
      ensures phase == if closure.Panics? then onPanic else onSuccess
    {
      phase := onPanic;
      if closure.Panics? { return true; }
      phase := onSuccess;
      return false;
    }

    /** `init_unique`, lazy_sequentializer.rs:748-761 and 27-37: the same effect and the same answer as
        `Init`, with either locker. */
    method InitUnique(init: Outcome, sync: bool) returns (r: Result)
      requires Valid()
      modifies this
      ensures Valid() && h == VisitOnly(tol, old(h), init)
      ensures r == if init.Panics? && ShallInit(tol, old(phase)) then Unwinding else Told(phase)
    {
      VisitOnlyOk(tol, h, init);
      if ShallInit(tol, phase) {
        var cur := EMPTY;
        var initialized := Union(cur, INITIALIZED);
        var failed := Union(Union(cur, INITIALIZATION_PANICKED), INITIALIZATION_SKIPED);
        h := VisitOnly(tol, h, init);
        var unwinds;
        if sync {
          unwinds := SyncTransition(init, initialized, failed);
        } else {
          unwinds := UnSyncTransition(init, initialized, failed);
        }
        if unwinds { return Unwinding; }
      }
      return Told(phase);
    }
  }
}
