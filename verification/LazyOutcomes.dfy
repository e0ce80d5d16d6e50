/** What the visits of one object come to: which closures a visit calls and how it ends, where each flag of
    the phase comes from, and who is let in (src/lazy_sequentializer.rs:12-136, src/lazy.rs:23-116). */
module LazyOutcomes {
  import opened Phases
  import opened LazyPolicies
  import opened LazyInit

  // ---------- one visit ----------

  /** What an attempt on an object in phase `cur` that shall be initialized has to come to.  Registration is
      asked for from the empty phase alone; initialization is called if registration is or was accepted, or if
      a failed one is tolerated and did not panic just now; and nothing else decides how the attempt ends. */
  predicate AttemptMeans(tol: Tolerance, cur: Phase, reg: Reply, init: Outcome, a: Attempted) {
    var asks := cur == EMPTY;
    var accepted := if asks then reg.Accepted? else cur.registered;
    var calls := accepted || (tol.finalRegistrationFailure && !(asks && reg.PanickedReg?));
    && (a.regRan <==> asks)
    && (a.initRan <==> calls)
    && (a.unwinds <==> (a.regRan && reg.PanickedReg?) || (a.initRan && init.Panics?))
    && (a.phase.initialized <==> a.initRan && init.Returns?)
    && (a.phase.initPanicked <==> a.initRan && init.Panics?)
    && (a.phase.initSkipped <==> !a.phase.initialized)
    && (a.phase.registered <==> accepted)
    && (a.phase.regPanicked <==> if asks then reg.PanickedReg? else cur.regPanicked)
    && (a.phase.regRefused <==> if asks then reg.RefusedReg? else cur.regRefused)
    && !a.phase.finalized && !a.phase.finPanicked
  }

  lemma AttemptOutcome(tol: Tolerance, cur: Phase, reg: Reply, init: Outcome)
    requires Known(tol, cur) && ShallInit(tol, cur)
    ensures AttemptMeans(tol, cur, reg, init, Attempt(tol, cur, reg, init))
  {
    ShallInitMeans(tol, cur);
  }

  /** What a visit of an object that shall be initialized has to come to: `k` is the record it leaves, and
      `normal` that the caller gets an answer. */
  predicate VisitComesTo(tol: Tolerance, h: History, reg: Reply, init: Outcome, k: History, normal: bool) {
    var asks := h.phase == EMPTY;
    var accepted := if asks then reg.Accepted? else h.links == 1;
    var calls := accepted || (tol.finalRegistrationFailure && !(asks && reg.PanickedReg?));
    && k.regCalls == h.regCalls + Bit(asks) && k.links == Bit(accepted)
    && k.initCalls == h.initCalls + Bit(calls) && k.initReturns == h.initReturns + Bit(calls && init.Returns?)
    && (k.phase.initialized <==> calls && init.Returns?) && (k.phase.initPanicked <==> calls && init.Panics?)
    && (k.phase.initSkipped <==> !k.phase.initialized)
    && (normal <==> !(asks && reg.PanickedReg?) && !(calls && init.Panics?))
    && k.finCalls == h.finCalls == 0
  }

  lemma AttemptCounts(tol: Tolerance, h: History, reg: Reply, init: Outcome, a: Attempted, k: History)
    requires HistoryOk(tol, h) && !h.phase.initialized && AttemptMeans(tol, h.phase, reg, init, a)
    requires k == History(a.phase,
      h.regCalls + Bit(a.regRan), h.links + Bit(a.regRan && reg.Accepted?),
      h.initCalls + Bit(a.initRan), h.initReturns + Bit(a.initRan && init.Returns?), h.finCalls)
    ensures VisitComesTo(tol, h, reg, init, k, !a.unwinds)
  {
  }

  lemma VisitAttempts(tol: Tolerance, h: History, reg: Reply, init: Outcome, a: Attempted)
    requires ShallInit(tol, h.phase) && a == Attempt(tol, h.phase, reg, init)
    ensures Visit(tol, h, Access(reg, init)) == History(a.phase,
      h.regCalls + Bit(a.regRan), h.links + Bit(a.regRan && reg.Accepted?),
      h.initCalls + Bit(a.initRan), h.initReturns + Bit(a.initRan && init.Returns?), h.finCalls)
    ensures ReturnsNormally(tol, h, Access(reg, init)) <==> !a.unwinds
  {
  }

  /** A visit of an object that shall be initialized asks for registration from the
      empty phase, and calls initialization exactly once more if and only if registration is or was accepted or
      a failed one is tolerated and did not panic in this visit.  The object ends INITIALIZED if and only if
      that call returns, and the caller unwinds if and only if a closure that was called panicked. */
  lemma VisitMeans(tol: Tolerance, h: History, reg: Reply, init: Outcome)
    requires HistoryOk(tol, h) && ShallInit(tol, h.phase)
    ensures VisitComesTo(tol, h, reg, init, Visit(tol, h, Access(reg, init)),
      ReturnsNormally(tol, h, Access(reg, init)))
  {
    var a := Attempt(tol, h.phase, reg, init);
    ShallInitMeans(tol, h.phase);
    AttemptOutcome(tol, h.phase, reg, init);
    VisitAttempts(tol, h, reg, init, a);
    AttemptCounts(tol, h, reg, init, a, Visit(tol, h, Access(reg, init)));
  }

  /** An object that need not be initialized is left as it is. */
  lemma NothingToDo(tol: Tolerance, h: History, sec: Section)
    requires HistoryOk(tol, h) && sec.Access? && (if tol.initFailure then h.initReturns == 1 else h.regCalls == 1)
    ensures Visit(tol, h, sec) == h && ReturnsNormally(tol, h, sec)
  {
    ShallInitMeans(tol, h.phase);
  }

  /** When the policies want an initialization: after every sequence of visits, as long as none has returned if
      INIT_FAILURE is tolerated, and else before the first attempt. */
  lemma ShallInitWhen(tol: Tolerance, secs: seq<Section>)
    ensures var h := After(tol, secs);
      ShallInit(tol, h.phase) <==> if tol.initFailure then h.initReturns == 0 else h.regCalls == 0
  {
    AfterOk(tol, secs);
    ShallInitMeans(tol, After(tol, secs).phase);
  }

  /** A visit of an object without registration calls initialization exactly if it shall be initialized, and
      the object ends INITIALIZED or failed as the call ends. */
  lemma VisitOnlyMeans(tol: Tolerance, h: History, init: Outcome)
    requires OnlyOk(tol, h)
    ensures var k := VisitOnly(tol, h, init);
      var calls := if tol.initFailure then h.initReturns == 0 else h.initCalls == 0;
      && (calls <==> ShallInit(tol, h.phase))
      && k.initCalls == h.initCalls + Bit(calls) && k.initReturns == h.initReturns + Bit(calls && init.Returns?)
      && (calls ==> (k.phase.initialized <==> init.Returns?) && (k.phase.initPanicked <==> init.Panics?)
                    && (k.phase.initSkipped <==> init.Panics?))
      && (!calls ==> k == h)
  {
    ShallInitMeans(tol, h.phase);
  }

  // ---------- the flags of finalization ----------

  /** A finalization changes nothing but the flag of its outcome, and nothing of an object that is not
      initialized. */
  lemma FinalizationMeans(tol: Tolerance, h: History, fin: Outcome)
    requires HistoryOk(tol, h)
    ensures var k := Visit(tol, h, Finalization(fin));
      && (h.initReturns == 0 ==> k == h)
      && (h.initReturns == 1 ==>
            && k.phase.finalized == (h.phase.finalized || fin.Returns?)
            && k.phase.finPanicked == (h.phase.finPanicked || fin.Panics?)
            && k == h.(finCalls := h.finCalls + 1,
                       phase := h.phase.(finalized := k.phase.finalized, finPanicked := k.phase.finPanicked)))
  {
  }

  /** The `k`-th visit finalizes the object, and the finalizer ends with `fin`. */
  predicate FinalizedAt(tol: Tolerance, secs: seq<Section>, k: nat, fin: Outcome) {
    k < |secs| && secs[k] == Finalization(fin) && After(tol, secs[..k]).phase.initialized
  }

  ghost predicate FinalizedWith(tol: Tolerance, secs: seq<Section>, fin: Outcome) {
    exists k: nat :: FinalizedAt(tol, secs, k, fin)
  }

  lemma FinalizedEarlier(tol: Tolerance, secs: seq<Section>, fin: Outcome)
    requires secs != []
    ensures FinalizedWith(tol, secs, fin) <==>
      FinalizedWith(tol, secs[..|secs| - 1], fin) || FinalizedAt(tol, secs, |secs| - 1, fin)
  {
    var first := secs[..|secs| - 1];
    forall k: nat
      ensures FinalizedAt(tol, secs, k, fin) <==>
        FinalizedAt(tol, first, k, fin) || (k == |secs| - 1 && FinalizedAt(tol, secs, k, fin))
    {
      if k < |first| { assert first[..k] == secs[..k]; }
    }
  }

  lemma AccessKeepsFlags(tol: Tolerance, h: History, sec: Section)
    requires HistoryOk(tol, h) && sec.Access?
    ensures Visit(tol, h, sec).phase.finalized == h.phase.finalized
    ensures Visit(tol, h, sec).phase.finPanicked == h.phase.finPanicked
  {
    ShallInitMeans(tol, h.phase);
  }

  /** Over every sequence of visits: FINALIZED is set if and only if some finalization of the initialized object
      returned, FINALIZATION_PANICKED if and only if one panicked. */
  lemma {:induction false} FinalFlags(tol: Tolerance, secs: seq<Section>)
    ensures After(tol, secs).phase.finalized <==> FinalizedWith(tol, secs, Returns)
    ensures After(tol, secs).phase.finPanicked <==> FinalizedWith(tol, secs, Panics)
    decreases |secs|
  {
    if secs != [] {
      var first, last := secs[..|secs| - 1], secs[|secs| - 1];
      var h := After(tol, first);
      FinalFlags(tol, first);
      AfterOk(tol, first);
      FinalizedEarlier(tol, secs, Returns);
      FinalizedEarlier(tol, secs, Panics);
      if last.Access? { AccessKeepsFlags(tol, h, last); } else { FinalizationMeans(tol, h, last.fin); }
    }
  }

  /** A finalizer only runs on an initialized object; run once, it leaves exactly the flag of its outcome. */
  lemma FinalizedWhenInitialized(tol: Tolerance, secs: seq<Section>)
    ensures var h := After(tol, secs);
      && (h.finCalls > 0 <==> h.phase.finalized || h.phase.finPanicked)
      && (h.finCalls > 0 ==> h.phase.initialized)
      && (h.finCalls == 1 ==> h.phase.finalized != h.phase.finPanicked)
      && (h.finCalls == 1 ==> (h.phase.finalized <==> FinalizedWith(tol, secs, Returns)))
      && (h.finCalls == 1 ==> (h.phase.finPanicked <==> FinalizedWith(tol, secs, Panics)))
  {
    AfterOk(tol, secs);
    FinalFlags(tol, secs);
  }

  // ---------- who is let in ----------

  lemma AccessFlags(k: Checker, p: Phase)
    ensures IsAccessible(k, p) <==> p.initialized && (k.HardFinalized? ==> !p.finalized && !p.finPanicked)
    ensures InitializedIsAccessible(k, p) <==> (k.HardFinalized? ==> !p.finalized && !p.finPanicked)
  {
    InitializedFlag(p);
    FinalizedFlags(p);
  }

  /** The full test, over every sequence of visits: an object is accessible if and only if its initialization
      has returned and, for the hard checkers, its finalizer has not been called. */
  lemma AccessMeans(k: Checker, tol: Tolerance, secs: seq<Section>)
    ensures var h := After(tol, secs);
      IsAccessible(k, h.phase) <==> h.initReturns == 1 && (k.HardFinalized? ==> h.finCalls == 0)
  {
    AfterOk(tol, secs);
    AccessFlags(k, After(tol, secs).phase);
  }

  /** And the test after an attempt, which skips the first half where INIT_FAILURE is tolerated and the checker
      is the plain one, or relies on REG_ALWAYS, or a failed registration is tolerated. */
  lemma PostInitMeans(k: Checker, tol: Tolerance, secs: seq<Section>)
    ensures var h := After(tol, secs);
      var skips := tol.initFailure && match k
        case Initialized => true
        case SoftFinalized(always) => always || tol.finalRegistrationFailure
        case HardFinalized(always) => always || tol.finalRegistrationFailure;
      PostInitIsAccessible(k, tol, h.phase) <==>
        (skips || h.initReturns == 1) && (k.HardFinalized? ==> h.finCalls == 0)
  {
    AfterOk(tol, secs);
    AccessFlags(k, After(tol, secs).phase);
  }

  /** After a normal return, with a failed registration tolerated or the registration accepted, the elided test
      lets in exactly who should be. */
  lemma PostInitLetsIn(k: Checker, tol: Tolerance, secs: seq<Section>, sec: Section)
    requires k != Checker.Initialized && ReturnsNormally(tol, After(tol, secs), sec)
    requires var h := Visit(tol, After(tol, secs), sec); tol.finalRegistrationFailure || h.links == 1
    ensures var h := Visit(tol, After(tol, secs), sec);
      PostInitIsAccessible(k, tol, h.phase) <==> h.initReturns == 1 && (k.HardFinalized? ==> h.finCalls == 0)
  {
    AfterMore(tol, secs, sec);
    AccessMeans(k, tol, secs + [sec]);
    if Elides(k, tol) { ElisionSound(k, tol, secs, sec); }
  }

  /** An object without registration is accessible if and only if its initialization has returned. */
  lemma AccessOnlyMeans(tol: Tolerance, h: History)
    requires OnlyOk(tol, h)
    ensures IsAccessible(Checker.Initialized, h.phase) <==> h.initReturns == 1
  {
    AccessFlags(Checker.Initialized, h.phase);
  }
}
