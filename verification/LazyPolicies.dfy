/** The policies that say when a lazy object is initialized and when it may be accessed
    (src/lazy.rs:23-123), and the tolerances they depend on (src/lib.rs:538-541). */
module LazyPolicies {
  import opened Phases

  datatype Tolerance = Tolerance(initFailure: bool, finalRegistrationFailure: bool)

  /** The three checkers; `regAlways` is REG_ALWAYS. */
  datatype Checker = Initialized | SoftFinalized(regAlways: bool) | HardFinalized(regAlways: bool)

  predicate ShallInit(tol: Tolerance, p: Phase) {
    if tol.initFailure then !Intersects(p, INITIALIZED) else p == EMPTY
  }

  predicate InitializedIsAccessible(k: Checker, p: Phase) {
    match k
    case HardFinalized(_) => !Intersects(p, Union(FINALIZED, FINALIZATION_PANICKED))
    case _ => true
  }

  predicate IsAccessible(k: Checker, p: Phase) {
    match k
    case HardFinalized(_) => Intersects(p, INITIALIZED) && InitializedIsAccessible(k, p)
    case _ => Intersects(p, INITIALIZED)
  }

  /** The policy skips the test for INITIALIZED after an initialization attempt. */
  predicate Elides(k: Checker, tol: Tolerance) {
    tol.initFailure && (k.Initialized? || k.regAlways || tol.finalRegistrationFailure)
  }

  predicate PostInitIsAccessible(k: Checker, tol: Tolerance, p: Phase) {
    if Elides(k, tol) then InitializedIsAccessible(k, p) else IsAccessible(k, p)
  }

  lemma InitializedFlag(p: Phase)
    ensures Intersects(p, INITIALIZED) <==> p.initialized
  {
  }

  lemma RegisteredFlag(p: Phase)
    ensures Intersects(p, REGISTERED) <==> p.registered
  {
  }

  lemma FinalizedFlags(p: Phase)
    ensures Intersects(p, Union(FINALIZED, FINALIZATION_PANICKED)) <==> p.finalized || p.finPanicked
  {
  }

  lemma ShallInitMeans(tol: Tolerance, p: Phase)
    ensures ShallInit(tol, p) <==> if tol.initFailure then !p.initialized else p == EMPTY
  {
  }
}
