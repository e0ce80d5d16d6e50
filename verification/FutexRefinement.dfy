/** The futex phase locker refines the phased read/write lock: seen through `Abs`, every step of every
    client is a stutter or exactly one acquisition, release or conversion by that client. */
module FutexRefinement {
  import opened Phases
  import opened FutexProtocol
  import opened FutexInvariant
  import opened FutexPreserved
  import opened FutexTheorems
  import PhasedLock

  function Abs(s: State): PhasedLock.Lock {
    PhasedLock.Lock(s.w.phase,
      set i: nat | i < |s.pcs| && ReadHeld(s.pcs[i]),
      set i: nat | i < |s.pcs| && Exclusive(s.pcs[i]))
  }

  /** The abstract action of a step of `c` from `s` to `t`, read off the program points of `c`. */
  function ActionOf(s: State, t: State, c: nat): PhasedLock.Action
    requires c < |s.pcs| == |t.pcs|
  {
    if Exclusive(s.pcs[c]) then
      if Exclusive(t.pcs[c]) then PhasedLock.Stutter
      else if ReadHeld(t.pcs[c]) then PhasedLock.Downgrade(c, s.pcs[c].onUnlock)
      else PhasedLock.ReleaseWrite(c, s.pcs[c].onUnlock)
    else if ReadHeld(s.pcs[c]) then
      if ReadHeld(t.pcs[c]) then PhasedLock.Stutter else PhasedLock.ReleaseRead(c)
    else if ReadHeld(t.pcs[c]) then PhasedLock.AcquireRead(c)
    else if Exclusive(t.pcs[c]) then PhasedLock.AcquireWrite(c)
    else PhasedLock.Stutter
  }

  /** What a step does to the phase and to who holds what. */
  predicate Shape(s: State, t: State, c: nat)
    requires c < |s.pcs|
  {
    && |t.pcs| == |s.pcs|
    && (forall i: nat {:trigger t.pcs[i]} :: i < |s.pcs| && i != c ==>
          ReadHeld(t.pcs[i]) == ReadHeld(s.pcs[i]) && Exclusive(t.pcs[i]) == Exclusive(s.pcs[i]))
    && (if Exclusive(s.pcs[c]) && !Exclusive(t.pcs[c]) then t.w.phase == s.pcs[c].onUnlock
        else t.w.phase == s.w.phase && !(ReadHeld(s.pcs[c]) && Exclusive(t.pcs[c])))
  }

  lemma AcquiringShape(s: State, c: nat, ch: Choice)
    requires Enabled(s, c, ch)
    ensures Acquiring(s.pcs[c]) ==> Shape(s, Step(s, c, ch), c)
  {
  }

  lemma WaitingShape(s: State, c: nat, ch: Choice)
    requires Enabled(s, c, ch)
    ensures Waiting(s.pcs[c]) || Waking(s.pcs[c]) ==> Shape(s, Step(s, c, ch), c)
  {
  }

  lemma GuardShape(s: State, c: nat, ch: Choice)
    requires Enabled(s, c, ch)
    ensures (s.pcs[c].HoldRead? || s.pcs[c].HoldWrite? || s.pcs[c].DropRead? || s.pcs[c].ConvertXor?) ==>
      Shape(s, Step(s, c, ch), c)
  {
  }

  predicate HoldsNothing(pc: Pc) { !ReadHeld(pc) && !Exclusive(pc) }

  lemma ReleasedShape(s: State, t: State, c: nat, after: Pc)
    requires c < |s.pcs| && (s.pcs[c].DropWrite? || s.pcs[c].DropWriteXor?)
    requires t.pcs == s.pcs[c := after] && HoldsNothing(after) && t.w.phase == s.pcs[c].onUnlock
    ensures Shape(s, t, c)
  {
  }

  lemma ResumeHoldsNothing(next: Next, w: Word)
    ensures HoldsNothing(Resume(next)) && HoldsNothing(Transfer(w, next))
  {
  }

  lemma DropWriteShape(s: State, c: nat, init: Phase, onUnlock: Phase, next: Next)
    requires c < |s.pcs| && s.pcs[c] == DropWrite(init, onUnlock, next)
    ensures Shape(s, DropWriteStep(s, c, init, onUnlock, next), c)
  {
    ResumeHoldsNothing(next, s.w);
    if s.w == Pure(init).(locked := true) {
      ReleasedShape(s, DropWriteStep(s, c, init, onUnlock, next), c, Resume(next));
    }
  }

  lemma DropWriteXorShape(s: State, c: nat, init: Phase, onUnlock: Phase, next: Next)
    requires Inv(s) && c < |s.pcs| && s.pcs[c] == DropWriteXor(init, onUnlock, next)
    ensures Shape(s, DropWriteXorStep(s, c, init, onUnlock, next), c)
  {
    OwnerXor(s, c, init, onUnlock);
    var w := Unlocked(s.w, init, onUnlock);
    ResumeHoldsNothing(next, w);
    ReleasedShape(s, DropWriteXorStep(s, c, init, onUnlock, next), c,
      if HasWaiters(s.w) then Transfer(w, next) else Resume(next));
  }

  lemma ConvertShape(s: State, c: nat, origin: Origin, init: Phase, onUnlock: Phase)
    requires Inv(s) && c < |s.pcs| && s.pcs[c] == Convert(origin, init, onUnlock)
    ensures Shape(s, ConvertStep(s, c, origin, init, onUnlock), c)
  {
    OwnerXor(s, c, init, onUnlock);
  }

  lemma HandingShape(s: State, c: nat, ch: Choice)
    requires Enabled(s, c, ch)
    ensures (s.pcs[c].Transfer? || s.pcs[c].HandXor? || s.pcs[c].HandUnlock? || s.pcs[c].ReadersXor?) ==>
      Shape(s, Step(s, c, ch), c)
  {
  }

  lemma SettlingShape(s: State, c: nat, ch: Choice)
    requires Enabled(s, c, ch)
    ensures (s.pcs[c].RemarkReader? || s.pcs[c].Settle?) ==> Shape(s, Step(s, c, ch), c)
  {
  }

  lemma HandWakeShape(s: State, c: nat, ch: Choice)
    requires Enabled(s, c, ch) && s.pcs[c].HandWake?
    ensures Shape(s, Step(s, c, ch), c)
  {
  }

  lemma WakeReadersShape(s: State, c: nat, after: After, woken: set<nat>)
    requires c < |s.pcs| && s.pcs[c] == WakeReaders(after)
    ensures Shape(s, WakeReadersStep(s, c, after, woken), c)
  {
  }

  lemma StepShape(s: State, c: nat, ch: Choice)
    requires Inv(s) && Enabled(s, c, ch)
    ensures Shape(s, Step(s, c, ch), c)
  {
    AcquiringShape(s, c, ch);
    WaitingShape(s, c, ch);
    GuardShape(s, c, ch);
    HandingShape(s, c, ch);
    SettlingShape(s, c, ch);
    match s.pcs[c]
    case DropWrite(init, onUnlock, next) => DropWriteShape(s, c, init, onUnlock, next);
    case DropWriteXor(init, onUnlock, next) => DropWriteXorShape(s, c, init, onUnlock, next);
    case Convert(origin, init, onUnlock) => ConvertShape(s, c, origin, init, onUnlock);
    case HandWake(_, _, _) => HandWakeShape(s, c, ch);
    case WakeReaders(after) => WakeReadersShape(s, c, after, ch.woken);
    case _ =>
  }

  /** Who may hold what, in terms of the invariant alone. */
  lemma HeldExcludes(s: State, c: nat)
    requires Inv(s) && c < |s.pcs|
    ensures Exclusive(s.pcs[c]) ==>
      forall i: nat {:trigger s.pcs[i]} :: i < |s.pcs| && i != c ==> !Exclusive(s.pcs[i]) && !ReadHeld(s.pcs[i])
    ensures ReadHeld(s.pcs[c]) ==> forall i: nat {:trigger s.pcs[i]} :: i < |s.pcs| ==> !Exclusive(s.pcs[i])
  {
    forall i: nat | i < |s.pcs| && i != c && Exclusive(s.pcs[c])
      ensures !Exclusive(s.pcs[i]) && !ReadHeld(s.pcs[i])
    {
      HeldApart(s, c, i);
    }
    forall i: nat | i < |s.pcs| && ReadHeld(s.pcs[c])
      ensures !Exclusive(s.pcs[i])
    {
      if Exclusive(s.pcs[i]) && i != c { HeldApart(s, i, c); }
    }
  }

  lemma AbsExclusion(s: State)
    requires Inv(s)
    ensures PhasedLock.Exclusion(Abs(s))
  {
    forall c | c in Abs(s).writers
      ensures forall d :: d in Abs(s).writers ==> c == d
      ensures Abs(s).readers == {}
    {
      HeldExcludes(s, c);
    }
  }

  /** The sets of holders change by `c` alone. */
  lemma AbsChange(s: State, t: State, c: nat)
    requires c < |s.pcs| && Shape(s, t, c)
    ensures Abs(t).readers == (if ReadHeld(t.pcs[c]) then Abs(s).readers + {c} else Abs(s).readers - {c})
    ensures Abs(t).writers == (if Exclusive(t.pcs[c]) then Abs(s).writers + {c} else Abs(s).writers - {c})
  {
    forall i
      ensures i in Abs(t).readers <==> if i == c then ReadHeld(t.pcs[c]) else i in Abs(s).readers
      ensures i in Abs(t).writers <==> if i == c then Exclusive(t.pcs[c]) else i in Abs(s).writers
    {
      if 0 <= i < |s.pcs| { assert t.pcs[i] == t.pcs[i]; }
    }
  }

  /** Who holds nothing before the step and something after it finds room for it. */
  lemma AcquireAllowed(s: State, t: State, c: nat)
    requires Inv(t) && c < |s.pcs| && Shape(s, t, c)
    requires !ReadHeld(s.pcs[c]) && !Exclusive(s.pcs[c])
    ensures ReadHeld(t.pcs[c]) ==> Abs(s).writers == {}
    ensures Exclusive(t.pcs[c]) ==> Abs(s).writers == {} && Abs(s).readers == {}
  {
    HeldExcludes(t, c);
    forall i | i in Abs(s).writers
      ensures !ReadHeld(t.pcs[c]) && !Exclusive(t.pcs[c])
    {
      assert Exclusive(t.pcs[i]);
    }
    forall i | i in Abs(s).readers
      ensures !Exclusive(t.pcs[c])
    {
      assert ReadHeld(t.pcs[i]);
    }
  }

  lemma ActionMatches(s: State, t: State, c: nat)
    requires c < |s.pcs| && Shape(s, t, c)
    requires PhasedLock.Exclusion(Abs(s))
    requires !ReadHeld(s.pcs[c]) && !Exclusive(s.pcs[c]) && ReadHeld(t.pcs[c]) ==> Abs(s).writers == {}
    requires !ReadHeld(s.pcs[c]) && !Exclusive(s.pcs[c]) && Exclusive(t.pcs[c]) ==>
      Abs(s).writers == {} && Abs(s).readers == {}
    ensures PhasedLock.Allowed(Abs(s), ActionOf(s, t, c))
    ensures Abs(t) == PhasedLock.Apply(Abs(s), ActionOf(s, t, c))
  {
    AbsChange(s, t, c);
  }

  /** Refinement: every step of every client is the abstract action `ActionOf` names, a release or a
      conversion landing exactly on the phase the holder had planned. */
  lemma Refines(s: State, c: nat, ch: Choice)
    requires Reachable(s) && Enabled(s, c, ch)
    ensures var t := Step(s, c, ch);
      && |t.pcs| == |s.pcs|
      && PhasedLock.Allowed(Abs(s), ActionOf(s, t, c))
      && Abs(t) == PhasedLock.Apply(Abs(s), ActionOf(s, t, c))
  {
    ReachableOk(s);
    InvStep(s, c, ch);
    StepShape(s, c, ch);
    AbsExclusion(s);
    var t := Step(s, c, ch);
    if !ReadHeld(s.pcs[c]) && !Exclusive(s.pcs[c]) { AcquireAllowed(s, t, c); }
    ActionMatches(s, t, c);
  }

  /** While any read lock lives the phase does not change, whatever any client does. */
  lemma PhaseFixedWhileRead(s: State, c: nat, ch: Choice, i: nat)
    requires Reachable(s) && Enabled(s, c, ch)
    requires i < |s.pcs| && ReadHeld(s.pcs[i])
    ensures Step(s, c, ch).w.phase == s.w.phase
  {
    Refines(s, c, ch);
    ReachableOk(s);
    AbsExclusion(s);
    assert i in Abs(s).readers;
    PhasedLock.ActionKeepsExclusion(Abs(s), ActionOf(s, Step(s, c, ch), c));
  }
}
