/** Both phase lockers for several threads, seen alike: where each client stands, and what a step may do to
    that and to the phase. */
module Lockers {
  import opened Phases
  import opened FutexProtocol
  import opened FutexInvariant
  import opened FutexPreserved
  import opened FutexTheorems
  import opened FutexRefinement
  import opened FutexMoves
  import S = Spinning
  import PhasedLock

  datatype Locker = Futex(s: State) | Spin(r: S.Spin)

  datatype Move = OnFutex(ch: Choice) | OnSpin(k: S.Pick)

  /** Where a client stands.  `Owns` is a write guard whose closures may still run, `Publishes` one that is
      being released, or converted if it `keeps` a read lock; `Shares` is a read lock that is being made or
      released. */
  datatype Standing =
    | Elsewhere
    | Told(how: Phase -> LockNature, onWait: Phase -> LockNature, p: Phase)
    | Reads(asked: Option<Phase -> LockNature>, p: Phase)
    | Shares
    | Owns(how: Phase -> LockNature, found: Phase, plan: Phase)
    | Publishes(plan: Phase, keeps: bool)

  predicate Sole(x: Standing) { x.Owns? || x.Publishes? }

  predicate Inside(x: Standing) { x.Reads? || x.Shares? }

  function FutexStanding(pc: Pc): Standing {
    match pc
    case HoldWrite(call, init, onUnlock) => Owns(call.how, init, onUnlock)
    case DropWrite(_, onUnlock, _) => Publishes(onUnlock, false)
    case DropWriteXor(_, onUnlock, _) => Publishes(onUnlock, false)
    case Convert(_, _, onUnlock) => Publishes(onUnlock, true)
    case HoldRead(FromCall(call), p) => Reads(Some(call.how), p)
    case HoldRead(Derived, p) => Reads(None, p)
    case AnsweredNone(call, p) => Told(call.how, call.onWait, p)
    case _ => if ReadHeld(pc) then Shares else Elsewhere
  }

  function SpinStanding(pc: S.SpinPc): Standing {
    match pc
    case Writer(call, init, onUnlock) => Owns(call.how, init, onUnlock)
    case Unlocking(_, onUnlock) => Publishes(onUnlock, false)
    case Converting(_, onUnlock) => Publishes(onUnlock, true)
    case Reader(Called(call), p) => Reads(Some(call.how), p)
    case Reader(Copied, p) => Reads(None, p)
    case GaveNone(call, p) => Told(call.how, call.how, p)
    case Leaving(_) => Shares
    case _ => Elsewhere
  }

  function Clients(l: Locker): nat {
    match l
    case Futex(s) => |s.pcs|
    case Spin(r) => |r.pcs|
  }

  function At(l: Locker, c: nat): Standing
    requires c < Clients(l)
  {
    match l
    case Futex(s) => FutexStanding(s.pcs[c])
    case Spin(r) => SpinStanding(r.pcs[c])
  }

  function PhaseOf(l: Locker): Phase {
    match l
    case Futex(s) => s.w.phase
    case Spin(r) => r.w.phase
  }

  ghost predicate Live(l: Locker) {
    match l
    case Futex(s) => Reachable(s)
    case Spin(r) => S.SpinReachable(r)
  }

  /** A new locker, with `n` clients that may come to use it. */
  ghost predicate New(l: Locker, n: nat) {
    match l
    case Futex(s) => s == Start(EMPTY, n)
    case Spin(r) => r == S.SpinStart(EMPTY, n)
  }

  /** Client `c` makes the move `m`. */
  ghost predicate Goes(l: Locker, c: nat, m: Move, k: Locker) {
    match l
    case Futex(s) => m.OnFutex? && Enabled(s, c, m.ch) && k == Futex(Step(s, c, m.ch))
    case Spin(r) => m.OnSpin? && S.Able(r, c, m.k) && k.Spin? && S.SpinStep(r, c, m.k) == Some(k.r)
  }

  // ---------- what is common to them ----------

  /** What a client holds, is told or has asked for agrees with its `how` and with the phase. */
  ghost predicate Agrees(x: Standing, p: Phase) {
    match x
    case Told(how, onWait, q) => how(q).NoLock? || onWait(q).NoLock?
    case Reads(asked, q) => q == p && (asked.Some? ==> asked.value(p).Read?)
    case Owns(how, found, _) => found == p && how(p).Write?
    case _ => true
  }

  /** The phase that the move plans for the end of a write lock: `set_phase` on the guard. */
  function PlanIn(m: Move): Option<Phase> {
    match m
    case OnFutex(ch) => if ch.Plan? then Some(ch.phase) else None
    case OnSpin(k) => if k.Intend? then Some(k.phase) else None
  }

  /** The move turns a write guard into a read guard. */
  predicate Downgrades(m: Move) { if m.OnFutex? then m.ch.Downgrade? else m.k.Convert? }

  /** From standing `x` under phase `p` to standing `y` under phase `q`, by the move `m` of the client. */
  ghost predicate Turns(x: Standing, p: Phase, m: Move, y: Standing, q: Phase) {
    match x
    case Owns(how, found, plan) =>
      q == p && y == (match PlanIn(m)
                      case Some(next) => Owns(how, found, next)
                      case None => Publishes(plan, Downgrades(m)))
    case Publishes(plan, keeps) =>
      PlanIn(m).None? && if Sole(y) then y == x && q == p else q == plan && (Inside(y) <==> keeps)
    case _ => q == p && (Sole(y) ==> y.plan == p)
  }

  /** Whoever has the write lock is alone. */
  ghost predicate Apart(l: Locker) {
    forall c: nat, d: nat :: c < Clients(l) && d < Clients(l) && c != d && Sole(At(l, c)) ==>
      !Sole(At(l, d)) && !Inside(At(l, d))
  }

  lemma NewIsLive(l: Locker, n: nat)
    requires New(l, n)
    ensures Live(l) && Clients(l) == n && PhaseOf(l) == EMPTY
    ensures forall c: nat :: c < n ==> At(l, c) == Elsewhere
  {
    match l
    case Futex(s) =>
      assert [s][0] == Start(EMPTY, n);
      assert IsRun([s], []);
      assert [s][|[s]| - 1] == s;
    case Spin(r) =>
      assert S.SpinsTo(EMPTY, n, [], r);
  }

  lemma GoesLive(l: Locker, c: nat, m: Move, k: Locker)
    requires Live(l) && Goes(l, c, m, k)
    ensures Live(k)
  {
    match l
    case Futex(s) => Extend(s, c, m.ch);
    case Spin(r) => S.SpinExtend(r, c, m.k);
  }

  lemma FutexAgrees(s: State, c: nat)
    requires Reachable(s) && c < |s.pcs|
    ensures Agrees(FutexStanding(s.pcs[c]), s.w.phase)
  {
    NatureAgreement(s, c);
  }

  lemma SpinAgrees(r: S.Spin, c: nat)
    requires S.SpinReachable(r) && c < |r.pcs|
    ensures Agrees(SpinStanding(r.pcs[c]), r.w.phase)
  {
    S.SpinNature(r, c);
  }

  /** Guards and answers agree with `how`, in either locker. */
  lemma LiveAgrees(l: Locker, c: nat)
    requires Live(l) && c < Clients(l)
    ensures Agrees(At(l, c), PhaseOf(l))
  {
    match l
    case Futex(s) => FutexAgrees(s, c);
    case Spin(r) => SpinAgrees(r, c);
  }

  lemma FutexSole(pc: Pc)
    ensures Sole(FutexStanding(pc)) <==> Exclusive(pc)
    ensures Inside(FutexStanding(pc)) <==> ReadHeld(pc)
  {
  }

  lemma FutexApart(s: State, c: nat, d: nat)
    requires Reachable(s) && c < |s.pcs| && d < |s.pcs| && c != d && Sole(FutexStanding(s.pcs[c]))
    ensures !Sole(FutexStanding(s.pcs[d])) && !Inside(FutexStanding(s.pcs[d]))
  {
    FutexSole(s.pcs[c]);
    FutexSole(s.pcs[d]);
    MutualExclusion(s, c, d);
  }

  lemma SpinApart(r: S.Spin, c: nat, d: nat)
    requires S.SpinReachable(r) && c < |r.pcs| && d < |r.pcs| && c != d && Sole(SpinStanding(r.pcs[c]))
    ensures !Sole(SpinStanding(r.pcs[d])) && !Inside(SpinStanding(r.pcs[d]))
  {
    S.SpinReachableOk(r);
    S.Held(r, c);
    S.Held(r, d);
  }

  lemma LiveApart(l: Locker)
    requires Live(l)
    ensures Apart(l)
  {
    forall c: nat, d: nat | c < Clients(l) && d < Clients(l) && c != d && Sole(At(l, c))
      ensures !Sole(At(l, d)) && !Inside(At(l, d))
    {
      match l
      case Futex(s) => FutexApart(s, c, d);
      case Spin(r) => SpinApart(r, c, d);
    }
  }

  // ---------- what a step does ----------

  /** The step of `c` leaves the others where they stand, but for those it wakes, who own nothing. */
  ghost predicate OthersStay(l: Locker, k: Locker, c: nat) {
    && Clients(k) == Clients(l)
    && forall i: nat {:trigger At(k, i)} :: i < Clients(l) && i != c ==>
         At(k, i) == At(l, i) || (!Sole(At(l, i)) && !Sole(At(k, i)))
  }

  /** The owner of the futex locker goes on with its guard or lets go of it. */
  ghost predicate Kept(before: Pc, ch: Choice, after: Pc) {
    match before
    case HoldWrite(call, init, onUnlock) =>
      if ch.Plan? then after == HoldWrite(call, init, ch.phase)
      else (if ch.Downgrade? then after.Convert? else after.DropWrite?) && after.onUnlock == onUnlock
    case DropWrite(_, onUnlock, _) => !ch.Plan? && after.DropWriteXor? && after.onUnlock == onUnlock
    case _ => false
  }

  lemma OwnerKeeps(s: State, c: nat, ch: Choice)
    requires Enabled(s, c, ch) && Exclusive(s.pcs[c]) && Exclusive(Step(s, c, ch).pcs[c])
    ensures Kept(s.pcs[c], ch, Step(s, c, ch).pcs[c])
  {
    match s.pcs[c]
    case HoldWrite(_, _, _) =>
    case DropWrite(init, onUnlock, next) => ResumeHoldsNothing(next, s.w);
    case DropWriteXor(init, onUnlock, next) => ResumeHoldsNothing(next, Unlocked(s.w, init, onUnlock));
    case Convert(_, _, _) =>
  }

  lemma KeptTurns(before: Pc, ch: Choice, after: Pc, p: Phase)
    requires Kept(before, ch, after)
    ensures Turns(FutexStanding(before), p, OnFutex(ch), FutexStanding(after), p)
  {
  }

  lemma FreedTurns(before: Pc, ch: Choice, after: Pc, p: Phase, q: Phase)
    requires Exclusive(before) && !Exclusive(after) && !before.HoldWrite? && q == before.onUnlock
    requires !ch.Plan? && (ReadHeld(after) <==> before.Convert?)
    ensures Turns(FutexStanding(before), p, OnFutex(ch), FutexStanding(after), q)
  {
    FutexSole(after);
  }

  /** A conversion leaves a read lock, a release does not. */
  lemma Freed(s: State, c: nat, ch: Choice)
    requires Enabled(s, c, ch) && Exclusive(s.pcs[c]) && !s.pcs[c].HoldWrite? && !Exclusive(Step(s, c, ch).pcs[c])
    ensures !ch.Plan? && (ReadHeld(Step(s, c, ch).pcs[c]) <==> s.pcs[c].Convert?)
  {
    match s.pcs[c]
    case DropWrite(init, onUnlock, next) => ResumeHoldsNothing(next, s.w);
    case DropWriteXor(init, onUnlock, next) => ResumeHoldsNothing(next, Unlocked(s.w, init, onUnlock));
    case Convert(_, _, _) =>
  }

  lemma GuardStays(s: State, c: nat, ch: Choice)
    requires Enabled(s, c, ch) && s.pcs[c].HoldWrite?
    ensures Exclusive(Step(s, c, ch).pcs[c])
  {
  }

  lemma WakersOwnNothing(s: State, c: nat, ch: Choice)
    requires Enabled(s, c, ch) && (s.pcs[c].ConvertXor? || s.pcs[c].ReadersXor?)
    ensures !Exclusive(Step(s, c, ch).pcs[c])
  {
  }

  lemma ArrivesTurns(before: Pc, ch: Choice, after: Pc, p: Phase)
    requires !Exclusive(before) && (Exclusive(after) ==> after.init == after.onUnlock == p)
    ensures Turns(FutexStanding(before), p, OnFutex(ch), FutexStanding(after), p)
  {
    FutexSole(before);
    FutexSole(after);
  }

  lemma OwnedInit(s: State, c: nat)
    requires Inv(s) && c < |s.pcs| && Exclusive(s.pcs[c])
    ensures s.pcs[c].init == s.w.phase
  {
    assert s.pcs[c] == s.pcs[c];
  }

  lemma PlansNothing(s: State, c: nat, ch: Choice)
    requires Enabled(s, c, ch) && !Exclusive(s.pcs[c])
    ensures Quiet(Step(s, c, ch).pcs[c]) || !Exclusive(Step(s, c, ch).pcs[c])
  {
    if s.pcs[c].ConvertXor? || s.pcs[c].ReadersXor? { WakersOwnNothing(s, c, ch); } else { StepQuiet(s, c, ch); }
  }

  lemma Arrives(s: State, t: State, c: nat, ch: Choice)
    requires Inv(t) && Enabled(s, c, ch) && !Exclusive(s.pcs[c]) && t == Step(s, c, ch) && c < |t.pcs|
    ensures Exclusive(t.pcs[c]) ==> t.pcs[c].init == t.pcs[c].onUnlock == t.w.phase
  {
    PlansNothing(s, c, ch);
    if Exclusive(t.pcs[c]) { OwnedInit(t, c); }
  }

  lemma FutexTurns(s: State, c: nat, ch: Choice)
    requires Inv(s) && Enabled(s, c, ch)
    ensures var t := Step(s, c, ch);
      Turns(FutexStanding(s.pcs[c]), s.w.phase, OnFutex(ch), FutexStanding(t.pcs[c]), t.w.phase)
  {
    var t := Step(s, c, ch);
    StepShape(s, c, ch);
    if !Exclusive(s.pcs[c]) {
      InvStep(s, c, ch);
      Arrives(s, t, c, ch);
      ArrivesTurns(s.pcs[c], ch, t.pcs[c], s.w.phase);
    } else if Exclusive(t.pcs[c]) {
      OwnerKeeps(s, c, ch);
      KeptTurns(s.pcs[c], ch, t.pcs[c], s.w.phase);
    } else {
      if s.pcs[c].HoldWrite? { GuardStays(s, c, ch); }
      Freed(s, c, ch);
      FreedTurns(s.pcs[c], ch, t.pcs[c], s.w.phase, t.w.phase);
    }
  }

  lemma FutexOthers(s: State, c: nat, ch: Choice, i: nat)
    requires Enabled(s, c, ch) && i < |s.pcs| && i != c
    ensures var t := Step(s, c, ch);
      |t.pcs| == |s.pcs| && (t.pcs[i] == s.pcs[i] || (!Exclusive(s.pcs[i]) && !Exclusive(t.pcs[i])))
  {
    StepChanges(s, c, ch);
  }

  lemma FutexGoes(s: State, c: nat, ch: Choice)
    requires Inv(s) && Enabled(s, c, ch)
    ensures OthersStay(Futex(s), Futex(Step(s, c, ch)), c)
    ensures Turns(At(Futex(s), c), s.w.phase, OnFutex(ch), At(Futex(Step(s, c, ch)), c), Step(s, c, ch).w.phase)
  {
    var t := Step(s, c, ch);
    StepChanges(s, c, ch);
    FutexTurns(s, c, ch);
    forall i: nat | i < |s.pcs| && i != c
      ensures FutexStanding(t.pcs[i]) == FutexStanding(s.pcs[i])
        || (!Sole(FutexStanding(s.pcs[i])) && !Sole(FutexStanding(t.pcs[i])))
    {
      FutexOthers(s, c, ch, i);
      FutexSole(s.pcs[i]);
      FutexSole(t.pcs[i]);
    }
  }

  /** The step of the spinning locker moves one client. */
  lemma SpinMovesOne(r: S.Spin, c: nat, k: S.Pick)
    requires S.Able(r, c, k) && S.SpinStep(r, c, k).Some?
    ensures var t := S.SpinStep(r, c, k).value; |t.pcs| == |r.pcs| && t.pcs == r.pcs[c := t.pcs[c]]
  {
  }

  /** The owner of the spinning locker plans, lets go of its guard, or leaves. */
  ghost predicate SpinKept(before: S.SpinPc, k: S.Pick, after: S.SpinPc) {
    match before
    case Writer(call, init, onUnlock) =>
      after == (if k.Intend? then S.Writer(call, init, k.phase)
                else if k.Convert? then S.Converting(init, onUnlock) else S.Unlocking(init, onUnlock))
    case _ => !k.Intend? && !S.Owns(after) && (S.Holds(after) <==> before.Converting?)
  }

  lemma SpinOwner(r: S.Spin, c: nat, k: S.Pick, t: S.Spin)
    requires S.Able(r, c, k) && S.SpinStep(r, c, k) == Some(t) && S.Owns(r.pcs[c])
    ensures SpinKept(r.pcs[c], k, t.pcs[c])
  {
  }

  /** Whoever becomes the owner has no plan yet. */
  lemma SpinArrives(r: S.Spin, c: nat, k: S.Pick)
    requires S.Able(r, c, k) && S.SpinStep(r, c, k).Some? && !S.Owns(r.pcs[c])
    ensures var after := S.SpinStep(r, c, k).value.pcs[c]; S.Owns(after) ==> after.init == after.onUnlock
  {
    if r.pcs[c].Hinting? || r.pcs[c].Writing? || r.pcs[c].Reading? || r.pcs[c].Loading? {
      S.LoopOk(r.w, r.pcs[c].call, k.spin);
    }
  }

  /** The phase changes by the abstract action of the step. */
  lemma SpinPhase(r: S.Spin, c: nat, k: S.Pick, t: S.Spin)
    requires S.SpinInv(r) && S.Able(r, c, k) && S.SpinStep(r, c, k) == Some(t)
    ensures S.SpinInv(t) && |t.pcs| == |r.pcs|
    ensures t.w.phase == if S.Owns(r.pcs[c]) && !S.Owns(t.pcs[c]) then r.pcs[c].onUnlock else r.w.phase
  {
    S.SpinStepOk(r, c, k);
  }

  lemma SpinSole(pc: S.SpinPc)
    ensures Sole(SpinStanding(pc)) <==> S.Owns(pc)
    ensures S.Owns(pc) ==> SpinStanding(pc).plan == pc.onUnlock
    ensures S.Holds(pc) <==> Inside(SpinStanding(pc))
  {
  }

  lemma SpinTurns(r: S.Spin, c: nat, k: S.Pick, t: S.Spin)
    requires S.SpinInv(r) && S.Able(r, c, k) && S.SpinStep(r, c, k) == Some(t)
    ensures |t.pcs| == |r.pcs|
    ensures Turns(SpinStanding(r.pcs[c]), r.w.phase, OnSpin(k), SpinStanding(t.pcs[c]), t.w.phase)
  {
    SpinPhase(r, c, k, t);
    SpinSole(r.pcs[c]);
    SpinSole(t.pcs[c]);
    if S.Owns(r.pcs[c]) {
      SpinOwner(r, c, k, t);
    } else {
      SpinArrives(r, c, k);
      S.Inside(t, c);
    }
  }

  lemma SpinGoes(r: S.Spin, c: nat, k: S.Pick, t: S.Spin)
    requires S.SpinInv(r) && S.Able(r, c, k) && S.SpinStep(r, c, k) == Some(t)
    ensures OthersStay(Spin(r), Spin(t), c)
    ensures Turns(At(Spin(r), c), r.w.phase, OnSpin(k), At(Spin(t), c), t.w.phase)
  {
    SpinMovesOne(r, c, k);
    SpinTurns(r, c, k, t);
  }

  /** In either locker a step turns the standing of one client, and the phase with it. */
  lemma GoesTurns(l: Locker, c: nat, m: Move, k: Locker)
    requires Live(l) && Goes(l, c, m, k)
    ensures c < Clients(l) && OthersStay(l, k, c)
    ensures Turns(At(l, c), PhaseOf(l), m, At(k, c), PhaseOf(k))
  {
    match l
    case Futex(s) =>
      ReachableOk(s);
      FutexGoes(s, c, m.ch);
    case Spin(r) =>
      S.SpinReachableOk(r);
      SpinGoes(r, c, m.k, k.r);
  }
}
