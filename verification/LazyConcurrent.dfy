/** The life cycle of a lazy object under concurrency: the sequentializer's sections run through the guards
    of either phase locker, in every interleaving of any number of clients, for objects with registration
    and finalization and for plain ones. */
module LazyConcurrent {
  import opened Phases
  import opened FutexProtocol
  import opened Lockers
  import opened LazyPolicies
  import opened LazyInit
  import opened LazySequentializer

  /** An object that registers its finalization, or one that is only initialized. */
  datatype Kind = Registering | Plain

  /** The effect of a section on the record of an object. */
  function Effect(kind: Kind, tol: Tolerance, h: History, sec: Section): History {
    match kind
    case Registering => Visit(tol, h, sec)
    case Plain => if sec.Access? then VisitOnly(tol, h, sec.init) else h
  }

  /** The phases that objects of this kind can be in. */
  predicate Expected(kind: Kind, tol: Tolerance, p: Phase) {
    match kind
    case Registering => Known(tol, p)
    case Plain => p == EMPTY || p == INITIALIZED || p == FAILED
  }

  predicate RecordOk(kind: Kind, tol: Tolerance, h: History) {
    match kind
    case Registering => HistoryOk(tol, h)
    case Plain => OnlyOk(tol, h) && h.regCalls == h.links == h.finCalls == 0
  }

  lemma EffectOk(kind: Kind, tol: Tolerance, h: History, sec: Section)
    requires RecordOk(kind, tol, h)
    ensures RecordOk(kind, tol, Effect(kind, tol, h, sec)) && Advances(h.phase, Effect(kind, tol, h, sec).phase)
    ensures h.phase.initialized ==>
      Effect(kind, tol, h, sec).initCalls == h.initCalls && Effect(kind, tol, h, sec).regCalls == h.regCalls
  {
    ShallInitMeans(tol, h.phase);
    match kind
    case Registering => VisitOk(tol, h, sec);
    case Plain => if sec.Access? { VisitOnlyOk(tol, h, sec.init); }
  }

  /** What the record says. */
  lemma RecordMeans(kind: Kind, tol: Tolerance, h: History)
    requires RecordOk(kind, tol, h)
    ensures Expected(kind, tol, h.phase)
    ensures h.initReturns <= 1 && h.regCalls <= 1 && h.links <= 1 && (!tol.initFailure ==> h.initCalls <= 1)
    ensures h.initReturns == Bit(h.phase.initialized) && h.links == Bit(h.phase.registered)
    ensures kind.Plain? ==> h.regCalls == h.finCalls == 0
  {
  }

  // ---------- an object and its locker ----------

  datatype Lazy = Lazy(lock: Locker, h: History)

  /** The section of a client that took its write lock with `how` leaves `plan`.  Only `finalize_callback`
      finalizes, and it does so without asking again. */
  ghost predicate Obeys(kind: Kind, tol: Tolerance, how: Phase -> LockNature, h: History, sec: Section, plan: Phase) {
    && plan == Effect(kind, tol, h, sec).phase
    && (sec.Finalization? ==> kind.Registering? && how == FinalHow())
  }

  /** Client `c` lets go of its write guard: its closures are over and only the release remains. */
  predicate LetsGo(l: Locker, c: nat, k: Locker) {
    c < Clients(l) && c < Clients(k) && At(l, c).Owns? && At(k, c).Publishes?
  }

  /** A move of a client and, when it lets go, the section it has run. */
  datatype Deed = Deed(c: nat, m: Move, sec: Section)

  ghost predicate LazyStep(kind: Kind, tol: Tolerance, x: Lazy, d: Deed, y: Lazy) {
    && Goes(x.lock, d.c, d.m, y.lock)
    && (if LetsGo(x.lock, d.c, y.lock)
        then Obeys(kind, tol, At(x.lock, d.c).how, x.h, d.sec, At(x.lock, d.c).plan)
             && y.h == Effect(kind, tol, x.h, d.sec)
        else y.h == x.h)
  }

  /** `deeds` lead from a new object, with `n` clients that may come to use it, to `x`. */
  ghost predicate LazyTo(kind: Kind, tol: Tolerance, n: nat, deeds: seq<Deed>, x: Lazy)
    decreases |deeds|
  {
    if deeds == [] then New(x.lock, n) && x.h == UNUSED
    else
      var last := deeds[|deeds| - 1];
      exists w: Lazy :: LazyTo(kind, tol, n, deeds[..|deeds| - 1], w) && LazyStep(kind, tol, w, last, x)
  }

  // ---------- the record stays in step ----------

  /** The phase of the record is the phase the object has, or will have once its owner has let go. */
  predicate Synced(at: Standing, p: Phase, h: History) {
    match at
    case Owns(_, _, _) => p == h.phase
    case Publishes(plan, _) => plan == h.phase
    case _ => true
  }

  ghost predicate Unowned(l: Locker) { forall c: nat {:trigger At(l, c)} :: c < Clients(l) ==> !Sole(At(l, c)) }

  ghost predicate InStep(x: Lazy) {
    && (forall c: nat {:trigger At(x.lock, c)} :: c < Clients(x.lock) ==> Synced(At(x.lock, c), PhaseOf(x.lock), x.h))
    && (Unowned(x.lock) ==> PhaseOf(x.lock) == x.h.phase)
  }

  /** With `c` alone concerned it is enough to look at `c`. */
  lemma OneInStep(x: Lazy, c: nat)
    requires c < Clients(x.lock)
    requires forall i: nat {:trigger At(x.lock, i)} :: i < Clients(x.lock) && i != c ==> !Sole(At(x.lock, i))
    requires if Sole(At(x.lock, c)) then Synced(At(x.lock, c), PhaseOf(x.lock), x.h) else PhaseOf(x.lock) == x.h.phase
    ensures InStep(x)
  {
    assert Unowned(x.lock) ==> !Sole(At(x.lock, c));
  }

  /** With nobody concerned nothing changes. */
  lemma StillInStep(x: Lazy, c: nat, y: Lazy)
    requires InStep(x) && c < Clients(x.lock) && OthersStay(x.lock, y.lock, c) && y.h == x.h
    requires !Sole(At(x.lock, c)) && !Sole(At(y.lock, c)) && PhaseOf(y.lock) == PhaseOf(x.lock)
    ensures InStep(y)
  {
    forall i: nat | i < Clients(y.lock)
      ensures Synced(At(y.lock, i), PhaseOf(y.lock), y.h)
      ensures Sole(At(y.lock, i)) == Sole(At(x.lock, i))
    {
      if i != c { assert Synced(At(x.lock, i), PhaseOf(x.lock), x.h); }
    }
  }

  /** Beside an owner nobody else owns. */
  lemma NobodyElse(l: Locker, c: nat)
    requires Live(l) && c < Clients(l) && Sole(At(l, c))
    ensures forall i: nat {:trigger At(l, i)} :: i < Clients(l) && i != c ==> !Sole(At(l, i)) && !Inside(At(l, i))
  {
    LiveApart(l);
    forall i: nat | i < Clients(l) && i != c
      ensures !Sole(At(l, i)) && !Inside(At(l, i))
    {
      assert Sole(At(l, c));
    }
  }

  lemma OwnerInStep(kind: Kind, tol: Tolerance, x: Lazy, d: Deed, y: Lazy)
    requires Live(x.lock) && InStep(x) && LazyStep(kind, tol, x, d, y)
    requires d.c < Clients(x.lock) && OthersStay(x.lock, y.lock, d.c) && Sole(At(x.lock, d.c))
    requires Turns(At(x.lock, d.c), PhaseOf(x.lock), d.m, At(y.lock, d.c), PhaseOf(y.lock))
    ensures InStep(y)
  {
    NobodyElse(x.lock, d.c);
    assert Synced(At(x.lock, d.c), PhaseOf(x.lock), x.h);
    OneInStep(y, d.c);
  }

  lemma ArrivalInStep(x: Lazy, c: nat, m: Move, y: Lazy)
    requires Live(y.lock) && InStep(x) && c < Clients(x.lock) && OthersStay(x.lock, y.lock, c) && y.h == x.h
    requires !Sole(At(x.lock, c)) && Sole(At(y.lock, c))
    requires Turns(At(x.lock, c), PhaseOf(x.lock), m, At(y.lock, c), PhaseOf(y.lock))
    ensures InStep(y)
  {
    NobodyElse(y.lock, c);
    forall i: nat | i < Clients(x.lock)
      ensures !Sole(At(x.lock, i))
    {
      if i != c { assert !Sole(At(y.lock, i)); }
    }
    OneInStep(y, c);
  }

  lemma StayInStep(kind: Kind, tol: Tolerance, x: Lazy, d: Deed, y: Lazy)
    requires Live(x.lock) && InStep(x) && LazyStep(kind, tol, x, d, y)
    ensures InStep(y) && Live(y.lock)
  {
    GoesTurns(x.lock, d.c, d.m, y.lock);
    GoesLive(x.lock, d.c, d.m, y.lock);
    if Sole(At(x.lock, d.c)) { OwnerInStep(kind, tol, x, d, y); }
    else if Sole(At(y.lock, d.c)) { ArrivalInStep(x, d.c, d.m, y); }
    else { StillInStep(x, d.c, y); }
  }

  lemma NewInStep(x: Lazy, n: nat)
    requires New(x.lock, n) && x.h == UNUSED
    ensures Live(x.lock) && InStep(x)
  {
    NewIsLive(x.lock, n);
  }

  lemma StepRecord(kind: Kind, tol: Tolerance, x: Lazy, d: Deed, y: Lazy)
    requires RecordOk(kind, tol, x.h) && LazyStep(kind, tol, x, d, y)
    ensures RecordOk(kind, tol, y.h) && Advances(x.h.phase, y.h.phase)
    ensures x.h.phase.initialized ==> y.h.initCalls == x.h.initCalls && y.h.regCalls == x.h.regCalls
  {
    EffectOk(kind, tol, x.h, d.sec);
  }

  lemma {:induction false} LazyOk(kind: Kind, tol: Tolerance, n: nat, deeds: seq<Deed>, x: Lazy)
    requires LazyTo(kind, tol, n, deeds, x)
    ensures Live(x.lock) && InStep(x) && RecordOk(kind, tol, x.h)
    decreases |deeds|
  {
    if deeds == [] {
      NewInStep(x, n);
    } else {
      var last := deeds[|deeds| - 1];
      var w: Lazy :| LazyTo(kind, tol, n, deeds[..|deeds| - 1], w) && LazyStep(kind, tol, w, last, x);
      LazyOk(kind, tol, n, deeds[..|deeds| - 1], w);
      StayInStep(kind, tol, w, last, x);
      StepRecord(kind, tol, w, last, x);
    }
  }

  // ---------- theorems ----------

  /** Over any interleaving of accesses, finalizations and panics, with either locker: initialization returns
      at most once, registration is called and accepted at most once, and without INIT_FAILURE initialization
      is called at most once.  With nobody owning the lock the word says which of this has happened. */
  lemma ConcurrentInitOnce(kind: Kind, tol: Tolerance, n: nat, deeds: seq<Deed>, x: Lazy)
    requires LazyTo(kind, tol, n, deeds, x)
    ensures x.h.initReturns <= 1 && x.h.regCalls <= 1 && x.h.links <= 1
    ensures !tol.initFailure ==> x.h.initCalls <= 1
    ensures kind.Plain? ==> x.h.regCalls == x.h.finCalls == 0
    ensures Unowned(x.lock) ==>
      Expected(kind, tol, PhaseOf(x.lock)) && (PhaseOf(x.lock).initialized <==> x.h.initReturns == 1)
      && (PhaseOf(x.lock).registered <==> x.h.links == 1)
  {
    LazyOk(kind, tol, n, deeds, x);
    RecordMeans(kind, tol, x.h);
  }

  /** The phase of the word goes no way back, whoever steps. */
  lemma WordAdvances(kind: Kind, tol: Tolerance, x: Lazy, d: Deed, y: Lazy)
    requires Live(x.lock) && InStep(x) && RecordOk(kind, tol, x.h) && LazyStep(kind, tol, x, d, y)
    requires forall c: nat {:trigger At(x.lock, c)} :: c < Clients(x.lock) && At(x.lock, c).Publishes? ==>
      Advances(PhaseOf(x.lock), At(x.lock, c).plan)
    ensures Advances(PhaseOf(x.lock), PhaseOf(y.lock))
  {
    GoesTurns(x.lock, d.c, d.m, y.lock);
  }

  /** What is about to be published advances from what the word says. */
  ghost predicate Forward(l: Locker) {
    forall c: nat {:trigger At(l, c)} :: c < Clients(l) && At(l, c).Publishes? ==> Advances(PhaseOf(l), At(l, c).plan)
  }

  lemma StayForward(kind: Kind, tol: Tolerance, x: Lazy, d: Deed, y: Lazy)
    requires Live(x.lock) && InStep(x) && RecordOk(kind, tol, x.h) && Forward(x.lock) && LazyStep(kind, tol, x, d, y)
    ensures Forward(y.lock)
  {
    GoesTurns(x.lock, d.c, d.m, y.lock);
    StepRecord(kind, tol, x, d, y);
    if Sole(At(x.lock, d.c)) { NobodyElse(x.lock, d.c); }
    forall c: nat | c < Clients(y.lock) && At(y.lock, c).Publishes?
      ensures Advances(PhaseOf(y.lock), At(y.lock, c).plan)
    {
      if c != d.c { assert At(x.lock, c) == At(y.lock, c); }
      else { assert Synced(At(x.lock, c), PhaseOf(x.lock), x.h); }
    }
  }

  lemma {:induction false} ForwardTo(kind: Kind, tol: Tolerance, n: nat, deeds: seq<Deed>, x: Lazy)
    requires LazyTo(kind, tol, n, deeds, x)
    ensures Forward(x.lock)
    decreases |deeds|
  {
    if deeds == [] {
      NewIsLive(x.lock, n);
    } else {
      var last := deeds[|deeds| - 1];
      var w: Lazy :| LazyTo(kind, tol, n, deeds[..|deeds| - 1], w) && LazyStep(kind, tol, w, last, x);
      ForwardTo(kind, tol, n, deeds[..|deeds| - 1], w);
      LazyOk(kind, tol, n, deeds[..|deeds| - 1], w);
      StayForward(kind, tol, w, last, x);
    }
  }

  /** INITIALIZED is never cleared, whoever steps, and after it nothing is called again. */
  lemma ConcurrentNeverCleared(kind: Kind, tol: Tolerance, n: nat, deeds: seq<Deed>, x: Lazy, d: Deed, y: Lazy)
    requires LazyTo(kind, tol, n, deeds, x) && LazyStep(kind, tol, x, d, y)
    ensures Advances(x.h.phase, y.h.phase) && Advances(PhaseOf(x.lock), PhaseOf(y.lock))
    ensures x.h.phase.initialized ==> y.h.initCalls == x.h.initCalls && y.h.regCalls == x.h.regCalls
  {
    LazyOk(kind, tol, n, deeds, x);
    ForwardTo(kind, tol, n, deeds, x);
    WordAdvances(kind, tol, x, d, y);
    StepRecord(kind, tol, x, d, y);
  }

  /** Whoever holds the write lock finds the object as its `how` wanted it: an initializer one that shall be
      initialized, a finalizer one that is initialized; and nobody else is inside. */
  lemma OwnersFindTheirPhase(kind: Kind, tol: Tolerance, n: nat, deeds: seq<Deed>, x: Lazy, c: nat)
    requires LazyTo(kind, tol, n, deeds, x) && c < Clients(x.lock) && At(x.lock, c).Owns?
    ensures At(x.lock, c).found == x.h.phase == PhaseOf(x.lock)
    ensures At(x.lock, c).how == InitHow(tol) || At(x.lock, c).how == ReadHow(tol) ==> ShallInit(tol, x.h.phase)
    ensures At(x.lock, c).how == FinalHow() ==> x.h.phase.initialized && x.h.initReturns == 1
    ensures forall i: nat :: i < Clients(x.lock) && i != c ==> !Sole(At(x.lock, i)) && !Inside(At(x.lock, i))
  {
    LazyOk(kind, tol, n, deeds, x);
    RecordMeans(kind, tol, x.h);
    LiveAgrees(x.lock, c);
    assert Synced(At(x.lock, c), PhaseOf(x.lock), x.h);
    InitializedFlag(x.h.phase);
    NobodyElse(x.lock, c);
  }

  lemma ReaderExcludes(l: Locker, c: nat)
    requires Live(l) && c < Clients(l) && Inside(At(l, c))
    ensures Unowned(l)
  {
    LiveApart(l);
  }

  /** Whoever got a read guard from a read-or-initialize call reads an object that needs no initialization;
      with INIT_FAILURE that is one whose initialization has returned. */
  lemma ReadersFindItDone(kind: Kind, tol: Tolerance, n: nat, deeds: seq<Deed>, x: Lazy, c: nat)
    requires LazyTo(kind, tol, n, deeds, x) && c < Clients(x.lock)
    requires At(x.lock, c).Reads? && At(x.lock, c).asked == Some(ReadHow(tol))
    ensures At(x.lock, c).p == x.h.phase && !ShallInit(tol, x.h.phase)
    ensures tol.initFailure ==> x.h.initReturns == 1
  {
    LazyOk(kind, tol, n, deeds, x);
    RecordMeans(kind, tol, x.h);
    LiveAgrees(x.lock, c);
    ReaderExcludes(x.lock, c);
    ShallInitMeans(tol, x.h.phase);
  }

  /** And a call of `init` that is told a phase without taking the lock is told one that is done. */
  lemma ToldWhenDone(kind: Kind, tol: Tolerance, n: nat, deeds: seq<Deed>, x: Lazy, c: nat)
    requires LazyTo(kind, tol, n, deeds, x) && c < Clients(x.lock) && At(x.lock, c).Told?
    requires At(x.lock, c).how == InitHow(tol)
    requires At(x.lock, c).onWait == InitHow(tol) || forall p :: !At(x.lock, c).onWait(p).NoLock?
    ensures !ShallInit(tol, At(x.lock, c).p)
  {
    LazyOk(kind, tol, n, deeds, x);
    LiveAgrees(x.lock, c);
  }
}
