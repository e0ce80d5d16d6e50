/** Registration, initialization and finalization of one lazy object (src/lazy_sequentializer.rs).

    The user's closures are parameters: what they answer, or that they panic.  A `Section` is what one
    caller does under the write lock, which the lockers make exclusive; `Visit` is its effect on the phase
    and on the record of how often the closures were called.
 */
module LazyInit {
  import opened Phases
  import opened LazyPolicies

  /** How a closure ends. */
  datatype Outcome = Returns | Panics

  /** How the registration closure ends. */
  datatype Reply = Accepted | RefusedReg | PanickedReg

  datatype Section = Access(reg: Reply, init: Outcome) | Finalization(fin: Outcome)

  /** The phase, how often the registration, initialization and finalization closures were called, how
      often registration accepted and how often initialization returned. */
  datatype History = History(phase: Phase, regCalls: nat, links: nat, initCalls: nat, initReturns: nat, finCalls: nat)

  const UNUSED := History(EMPTY, 0, 0, 0, 0, 0)

  function RegFlag(reg: Reply): Phase {
    match reg
    case Accepted => REGISTERED
    case RefusedReg => REGISTRATION_REFUSED
    case PanickedReg => REGISTRATION_PANICKED
  }

  /** The registration flags of a phase, without those of the later stages. */
  function RegFlags(p: Phase): Phase {
    EMPTY.(registered := p.registered, regPanicked := p.regPanicked, regRefused := p.regRefused)
  }

  const FAILED := Union(INITIALIZATION_PANICKED, INITIALIZATION_SKIPED)

  /** What an initialization attempt does to an object in phase `cur` that shall be initialized. */
  datatype Attempted = Attempted(phase: Phase, regRan: bool, initRan: bool, unwinds: bool)

  function Attempt(tol: Tolerance, cur: Phase, reg: Reply, init: Outcome): Attempted {
    var asks := cur == EMPTY;
    var flag := if asks then RegFlag(reg) else RegFlags(cur);
    if asks && reg.PanickedReg? then Attempted(Union(flag, INITIALIZATION_SKIPED), true, false, true)
    else if flag.registered || tol.finalRegistrationFailure then
      Attempted(Union(flag, if init.Returns? then INITIALIZED else FAILED), asks, true, init.Panics?)
    else Attempted(Union(flag, INITIALIZATION_SKIPED), asks, false, false)
  }

  function FinalizedPhase(p: Phase, fin: Outcome): Phase {
    if fin.Returns? then p.(finalized := true) else p.(finPanicked := true)
  }

  function Visit(tol: Tolerance, h: History, sec: Section): History {
    match sec
    case Access(reg, init) =>
      if !ShallInit(tol, h.phase) then h
      else
        var a := Attempt(tol, h.phase, reg, init);
        History(a.phase,
          h.regCalls + Bit(a.regRan), h.links + Bit(a.regRan && reg.Accepted?),
          h.initCalls + Bit(a.initRan), h.initReturns + Bit(a.initRan && init.Returns?), h.finCalls)
    case Finalization(fin) =>
      if !h.phase.initialized then h else h.(phase := FinalizedPhase(h.phase, fin), finCalls := h.finCalls + 1)
  }

  // ---------- the closed phase machine ----------

  function FlagCount(p: Phase): nat { Bit(p.registered) + Bit(p.regPanicked) + Bit(p.regRefused) }

  /** The phases an object can be in. */
  predicate Known(tol: Tolerance, p: Phase) {
    p == EMPTY ||
    (&& FlagCount(p) == 1
     && (p.initialized != p.initSkipped)
     && (p.initPanicked ==> p.initSkipped)
     && (p.finalized || p.finPanicked ==> p.initialized)
     && (p.registered ==> p.initialized || p.initPanicked)
     && (p.regRefused ==> (p.initialized || p.initPanicked) == tol.finalRegistrationFailure)
     && (p.regPanicked && (p.initialized || p.initPanicked) ==> tol.initFailure && tol.finalRegistrationFailure))
  }

  /** The counts of calls match the phase. */
  predicate HistoryOk(tol: Tolerance, h: History) {
    && Known(tol, h.phase)
    && h.regCalls == Bit(h.phase != EMPTY)
    && h.links == Bit(h.phase.registered)
    && h.initReturns == Bit(h.phase.initialized)
    && (!tol.initFailure ==> h.initCalls <= 1)
    && (h.phase.initPanicked ==> h.initCalls > 0)
    && h.initReturns <= h.initCalls
    && (h.phase == EMPTY ==> h.initCalls == 0)
    && (h.finCalls > 0 ==> h.phase.initialized)
    && (h.phase.finalized || h.phase.finPanicked <==> h.finCalls > 0)
    && (h.finCalls <= 1 ==> !(h.phase.finalized && h.phase.finPanicked))
  }

  lemma VisitOk(tol: Tolerance, h: History, sec: Section)
    requires HistoryOk(tol, h)
    ensures HistoryOk(tol, Visit(tol, h, sec)) && Advances(h.phase, Visit(tol, h, sec).phase)
  {
    ShallInitMeans(tol, h.phase);
  }

  // ---------- every sequence of visits ----------

  /** What a new object has become after the visits `secs`. */
  function After(tol: Tolerance, secs: seq<Section>): History {
    if secs == [] then UNUSED else Visit(tol, After(tol, secs[..|secs| - 1]), secs[|secs| - 1])
  }

  lemma {:induction false} AfterOk(tol: Tolerance, secs: seq<Section>)
    ensures HistoryOk(tol, After(tol, secs))
    decreases |secs|
  {
    if secs != [] {
      AfterOk(tol, secs[..|secs| - 1]);
      VisitOk(tol, After(tol, secs[..|secs| - 1]), secs[|secs| - 1]);
    }
  }

  lemma AfterMore(tol: Tolerance, secs: seq<Section>, sec: Section)
    ensures After(tol, secs + [sec]) == Visit(tol, After(tol, secs), sec)
  {
    assert (secs + [sec])[..|secs|] == secs;
  }

  /** Some sequence of visits, with some answers and panics of the closures, leads to `p`. */
  ghost predicate Reached(tol: Tolerance, p: Phase) {
    exists secs: seq<Section> :: After(tol, secs).phase == p
  }

  function VisitPhase(tol: Tolerance, p: Phase, sec: Section): Phase { Visit(tol, UNUSED.(phase := p), sec).phase }

  lemma ReachMore(tol: Tolerance, p: Phase, sec: Section)
    requires Reached(tol, p)
    ensures Reached(tol, VisitPhase(tol, p, sec))
  {
    var secs: seq<Section> :| After(tol, secs).phase == p;
    AfterMore(tol, secs, sec);
    assert After(tol, secs + [sec]).phase == VisitPhase(tol, p, sec);
  }

  /** The closed phase machine, both ways: a phase is known exactly if it can be reached. */
  lemma KnownIffReached(tol: Tolerance, p: Phase)
    ensures Known(tol, p) <==> Reached(tol, p)
  {
    if Known(tol, p) {
      KnownReached(tol, p);
    } else {
      forall secs: seq<Section>
        ensures After(tol, secs).phase != p
      {
        AfterOk(tol, secs);
      }
    }
  }

  lemma EmptyReached(tol: Tolerance)
    ensures Reached(tol, EMPTY)
  {
    assert After(tol, []).phase == EMPTY;
  }

  lemma FirstVisit(tol: Tolerance, reg: Reply, init: Outcome)
    ensures VisitPhase(tol, EMPTY, Access(reg, init)) == Attempt(tol, EMPTY, reg, init).phase
  {
    ShallInitMeans(tol, EMPTY);
  }

  lemma SecondVisit(tol: Tolerance, p: Phase, init: Outcome)
    requires tol.initFailure && tol.finalRegistrationFailure && p != EMPTY && !p.initialized
    ensures VisitPhase(tol, p, Access(Accepted, init)) == Union(RegFlags(p), Stage(init))
  {
    ShallInitMeans(tol, p);
  }

  function Stage(init: Outcome): Phase { if init.Returns? then INITIALIZED else FAILED }

  /** A known phase before finalization is a registration flag and a stage. */
  lemma KnownShape(tol: Tolerance, p: Phase)
    requires Known(tol, p) && !p.finalized && !p.finPanicked && p != EMPTY
    ensures RegFlags(p) == RegFlag(if p.registered then Accepted else if p.regRefused then RefusedReg else PanickedReg)
    ensures p == Union(RegFlags(p), if p.initialized then INITIALIZED else if p.initPanicked then FAILED
                                    else INITIALIZATION_SKIPED)
  {
  }

  lemma FlagsOfUnion(reg: Reply)
    ensures RegFlags(Union(RegFlag(reg), INITIALIZATION_SKIPED)) == RegFlag(reg)
    ensures Union(RegFlag(reg), INITIALIZATION_SKIPED) != EMPTY
    ensures !Union(RegFlag(reg), INITIALIZATION_SKIPED).initialized
  {
  }

  lemma OneVisit(tol: Tolerance, reg: Reply, init: Outcome)
    ensures Reached(tol, Attempt(tol, EMPTY, reg, init).phase)
  {
    EmptyReached(tol);
    FirstVisit(tol, reg, init);
    ReachMore(tol, EMPTY, Access(reg, init));
  }

  lemma RetryReached(tol: Tolerance, p: Phase, init: Outcome)
    requires tol.initFailure && tol.finalRegistrationFailure && p != EMPTY && !p.initialized && Reached(tol, p)
    ensures Reached(tol, Union(RegFlags(p), Stage(init)))
  {
    SecondVisit(tol, p, init);
    ReachMore(tol, p, Access(Accepted, init));
  }

  lemma PanickedAttempt(tol: Tolerance, init: Outcome)
    ensures Attempt(tol, EMPTY, PanickedReg, init).phase == Union(RegFlag(PanickedReg), INITIALIZATION_SKIPED)
  {
  }

  lemma TwoVisits(tol: Tolerance, init: Outcome)
    requires tol.initFailure && tol.finalRegistrationFailure
    ensures Reached(tol, Union(RegFlag(PanickedReg), Stage(init)))
  {
    var p := Attempt(tol, EMPTY, PanickedReg, init).phase;
    OneVisit(tol, PanickedReg, init);
    PanickedAttempt(tol, init);
    FlagsOfUnion(PanickedReg);
    RetryReached(tol, p, init);
  }

  lemma BeginningReached(tol: Tolerance, p: Phase)
    requires Known(tol, p) && !p.finalized && !p.finPanicked
    ensures Reached(tol, p)
  {
    if p == EMPTY {
      EmptyReached(tol);
    } else {
      var init := if p.initialized then Returns else Panics;
      KnownShape(tol, p);
      if p.regPanicked && (p.initialized || p.initPanicked) {
        TwoVisits(tol, init);
      } else {
        OneVisit(tol, if p.registered then Accepted else if p.regRefused then RefusedReg else PanickedReg, init);
      }
    }
  }

  lemma KnownReached(tol: Tolerance, p: Phase)
    requires Known(tol, p)
    ensures Reached(tol, p)
  {
    var q := p.(finalized := false, finPanicked := false);
    BeginningReached(tol, q);
    if p.finalized { ReachMore(tol, q, Finalization(Returns)); }
    if p.finPanicked { ReachMore(tol, q.(finalized := p.finalized), Finalization(Panics)); }
  }

  /** Initialize once: whatever the closures do, initialization returns at most once, exactly if the object
      is INITIALIZED, and without INIT_FAILURE it is called at most once. */
  lemma InitializeOnce(tol: Tolerance, secs: seq<Section>)
    ensures var h := After(tol, secs);
      h.initReturns <= 1 && (h.initReturns == 1 <==> h.phase.initialized) && (!tol.initFailure ==> h.initCalls <= 1)
  {
    AfterOk(tol, secs);
  }

  /** INITIALIZED is never cleared, and no initialization or registration is called once it is set. */
  lemma {:induction false} NeverAgain(tol: Tolerance, secs: seq<Section>, more: seq<Section>)
    requires After(tol, secs).phase.initialized
    ensures var h := After(tol, secs); var k := After(tol, secs + more);
      k.phase.initialized && k.initCalls == h.initCalls && k.regCalls == h.regCalls
    decreases |more|
  {
    if more == [] {
      assert secs + more == secs;
    } else {
      var first, last := more[..|more| - 1], more[|more| - 1];
      NeverAgain(tol, secs, first);
      assert secs + more == (secs + first) + [last];
      AfterMore(tol, secs + first, last);
      AfterOk(tol, secs + first);
      ShallInitMeans(tol, After(tol, secs + first).phase);
    }
  }

  /** Registered at most once: registration is only called from the empty phase, which the same visit
      leaves for good, so it is called at most once and an object is linked at most once. */
  lemma RegisteredOnce(tol: Tolerance, secs: seq<Section>)
    ensures var h := After(tol, secs);
      h.links <= h.regCalls <= 1 && (h.regCalls == 1 <==> h.phase != EMPTY) && (h.links == 1 <==> h.phase.registered)
  {
    AfterOk(tol, secs);
  }

  /** Called again, `finalize_callback` runs the finalizer again: at most once is not its own doing. */
  lemma FinalizesAgain(tol: Tolerance, secs: seq<Section>, fin: Outcome)
    requires After(tol, secs).phase.initialized
    ensures After(tol, secs + [Finalization(fin)]).finCalls == After(tol, secs).finCalls + 1
  {
    AfterMore(tol, secs, Finalization(fin));
  }

  // ---------- check elision ----------

  /** A visit whose caller gets an answer: nothing it ran panicked. */
  predicate ReturnsNormally(tol: Tolerance, h: History, sec: Section) {
    sec.Access? && (ShallInit(tol, h.phase) ==> !Attempt(tol, h.phase, sec.reg, sec.init).unwinds)
  }

  /** A normal return leaves the object registered wherever INIT_FAILURE is tolerated and a failed
      registration is not, or else uninitialized. */
  lemma NormalReturn(tol: Tolerance, h: History, sec: Section)
    requires HistoryOk(tol, h) && tol.initFailure && ReturnsNormally(tol, h, sec)
    ensures var k := Visit(tol, h, sec);
      k.phase.initialized <==> tol.finalRegistrationFailure || k.links == 1
  {
    VisitOk(tol, h, sec);
    ShallInitMeans(tol, h.phase);
  }

  lemma ElisionAgrees(k: Checker, tol: Tolerance, h: History)
    requires Elides(k, tol) && HistoryOk(tol, h)
    ensures PostInitIsAccessible(k, tol, h.phase) == IsAccessible(k, h.phase) <==> h.phase.initialized
  {
    InitializedFlag(h.phase);
    FinalizedFlags(h.phase);
  }

  /** Check elision, the exact condition.  After a normal return of an init method of an object with
      registration, a checker that skips its test answers what the full test would if and only if a failed
      registration is tolerated or the registration of the object has been accepted.  The debug assertion of
      a REG_ALWAYS checker fails exactly if it has not been. */
  lemma ElisionSound(k: Checker, tol: Tolerance, secs: seq<Section>, sec: Section)
    requires k != Checker.Initialized && Elides(k, tol)
    requires ReturnsNormally(tol, After(tol, secs), sec)
    ensures var h := Visit(tol, After(tol, secs), sec);
      PostInitIsAccessible(k, tol, h.phase) == IsAccessible(k, h.phase)
      <==> tol.finalRegistrationFailure || h.links == 1
    ensures var h := Visit(tol, After(tol, secs), sec);
      Intersects(h.phase, REGISTERED) <==> h.links == 1
  {
    AfterOk(tol, secs);
    VisitOk(tol, After(tol, secs), sec);
    NormalReturn(tol, After(tol, secs), sec);
    ElisionAgrees(k, tol, Visit(tol, After(tol, secs), sec));
    RegisteredFlag(Visit(tol, After(tol, secs), sec).phase);
  }

  lemma OneVisitAfter(tol: Tolerance, secs: seq<Section>, sec: Section)
    requires secs == [sec]
    ensures After(tol, secs) == Visit(tol, UNUSED, sec)
  {
    assert secs[..|secs| - 1] == [];
  }

  /** A registration that fails on the first visit, or has panicked on the visit before. */
  lemma FailureVisit(tol: Tolerance, h: History, sec: Section)
    requires tol == Tolerance(true, false) && sec.Access? && !sec.reg.Accepted?
    requires h.phase == EMPTY || h.phase == Union(REGISTRATION_PANICKED, INITIALIZATION_SKIPED)
    ensures var p := Visit(tol, h, sec).phase;
      p == Union(if h.phase == EMPTY then RegFlag(sec.reg) else REGISTRATION_PANICKED, INITIALIZATION_SKIPED)
    ensures ReturnsNormally(tol, h, sec) <==> h.phase != EMPTY || sec.reg.RefusedReg?
  {
    ShallInitMeans(tol, h.phase);
  }

  lemma SkippedAccess(k: Checker, tol: Tolerance, p: Phase)
    requires k != Checker.Initialized && k.regAlways && tol.initFailure
    requires p == Union(REGISTRATION_REFUSED, INITIALIZATION_SKIPED)
      || p == Union(REGISTRATION_PANICKED, INITIALIZATION_SKIPED)
    ensures !p.initialized && PostInitIsAccessible(k, tol, p) && !IsAccessible(k, p)
  {
    InitializedFlag(p);
    FinalizedFlags(p);
  }

  /** `sec` returns normally without initializing, and the elided test grants access. */
  predicate Slips(k: Checker, tol: Tolerance, h: History, sec: Section) {
    var p := Visit(tol, h, sec).phase;
    ReturnsNormally(tol, h, sec) && !p.initialized && PostInitIsAccessible(k, tol, p) && !IsAccessible(k, p)
  }

  lemma FailureSlips(k: Checker, tol: Tolerance, h: History, sec: Section)
    requires k != Checker.Initialized && k.regAlways && tol == Tolerance(true, false)
    requires sec.Access? && !sec.reg.Accepted?
    requires h.phase == if sec.reg.PanickedReg? then Union(REGISTRATION_PANICKED, INITIALIZATION_SKIPED) else EMPTY
    ensures Slips(k, tol, h, sec)
  {
    FailureVisit(tol, h, sec);
    SkippedAccess(k, tol, Visit(tol, h, sec).phase);
  }

  lemma FailedOnce(tol: Tolerance, secs: seq<Section>, sec: Section)
    requires tol == Tolerance(true, false) && sec.Access? && sec.reg.PanickedReg? && secs == [sec]
    ensures After(tol, secs).phase == Union(REGISTRATION_PANICKED, INITIALIZATION_SKIPED)
  {
    OneVisitAfter(tol, secs, sec);
    FailureVisit(tol, UNUSED, sec);
  }

  /** The inputs that fail, for every policy that relies on REG_ALWAYS: with a registration that is refused
      the first access slips through, and with one that panics the access after it does. */
  lemma ElisionNeedsRegistration(k: Checker, tol: Tolerance, sec: Section) returns (secs: seq<Section>)
    requires k != Checker.Initialized && k.regAlways && tol == Tolerance(true, false)
    requires sec.Access? && !sec.reg.Accepted?
    ensures secs == (if sec.reg.PanickedReg? then [sec] else []) && Slips(k, tol, After(tol, secs), sec)
  {
    secs := [sec];
    if sec.reg.PanickedReg? { FailedOnce(tol, secs, sec); } else { secs := secs[1..]; }
    FailureSlips(k, tol, After(tol, secs), sec);
  }

  // ---------- objects that are not finalized ----------

  /** `lazy_initialization_only` and `init_unique`: an object without registration. */
  function VisitOnly(tol: Tolerance, h: History, init: Outcome): History {
    if !ShallInit(tol, h.phase) then h
    else h.(phase := if init.Returns? then INITIALIZED else FAILED,
            initCalls := h.initCalls + 1, initReturns := h.initReturns + Bit(init.Returns?))
  }

  predicate OnlyOk(tol: Tolerance, h: History) {
    && (h.phase == EMPTY || h.phase == INITIALIZED || h.phase == FAILED)
    && h.initReturns == Bit(h.phase == INITIALIZED)
    && (h.initCalls == 0 <==> h.phase == EMPTY)
    && (!tol.initFailure ==> h.initCalls <= 1)
  }

  lemma VisitOnlyOk(tol: Tolerance, h: History, init: Outcome)
    requires OnlyOk(tol, h)
    ensures OnlyOk(tol, VisitOnly(tol, h, init)) && Advances(h.phase, VisitOnly(tol, h, init).phase)
    ensures init.Returns? && tol.initFailure ==> VisitOnly(tol, h, init).phase == INITIALIZED
  {
    ShallInitMeans(tol, h.phase);
  }

  /** For such an object the plain checker may skip its test after every normal return. */
  lemma ElisionOnly(tol: Tolerance, h: History, init: Outcome)
    requires OnlyOk(tol, h) && (init.Returns? || !ShallInit(tol, h.phase))
    ensures var p := VisitOnly(tol, h, init).phase;
      PostInitIsAccessible(Checker.Initialized, tol, p) == IsAccessible(Checker.Initialized, p)
  {
    var p := VisitOnly(tol, h, init).phase;
    InitializedFlag(p);
    ShallInitMeans(tol, h.phase);
  }
}
