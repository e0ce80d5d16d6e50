/** Lazy objects and the exit manager together: every object registers itself at its first initialization
    attempt, in the middle of which the drain may already reach it (src/lazy_sequentializer.rs:49-136,
    542-569; src/exit_sequentializer.rs:56-102, 250-266).  Finalizers are taken not to panic. */
module ExitLife {
  import opened Phases
  import opened FutexProtocol
  import opened LazyPolicies
  import opened LazyInit
  import opened ExitDrain

  /** `busy[x]` is the reply that the registration of `x` got in an attempt that is still initializing: the
      caller has the write lock and the phase in the word still is empty.  `missed` are the objects that
      were not initialized when their turn came in the drain. */
  datatype Life = Life(drain: Drain<nat>, objects: seq<History>, busy: seq<Option<Reply>>, missed: set<nat>)

  datatype Act =
    | BeginAccess(x: nat)
    | EndAccess(x: nat, init: Outcome)
    | AccessAgain(x: nat, init: Outcome)
    | DrainMove(m: Move<nat>)

  predicate Sized(l: Life, tols: seq<Tolerance>) {
    |l.objects| == |l.busy| == |tols| && forall x :: x in l.drain.chain ==> x < |tols|
  }

  predicate Ready(l: Life, tols: seq<Tolerance>, a: Act) {
    Sized(l, tols) &&
    match a
    case BeginAccess(x) => x < |tols| && l.objects[x].phase == EMPTY && l.busy[x].None?
    case EndAccess(x, _) => x < |tols| && l.busy[x].Some?
    case AccessAgain(x, _) => x < |tols| && l.objects[x].phase != EMPTY && l.busy[x].None?
    case DrainMove(m) => !m.Register? && Can(l.drain, m)
  }

  function Visited(l: Life, tols: seq<Tolerance>, x: nat, sec: Section): seq<History>
    requires Sized(l, tols) && x < |tols|
  {
    l.objects[x := Visit(tols[x], l.objects[x], sec)]
  }

  /** Registration runs from the empty phase, so `x` has not asked before, see `FirstRegistration`. */
  function Perform(l: Life, tols: seq<Tolerance>, a: Act): Life
    requires Ready(l, tols, a) && (a.BeginAccess? ==> a.x !in l.drain.attempted)
  {
    match a
    case BeginAccess(x) =>
      l.(drain := Make(l.drain, Register(x)),
         busy := l.busy[x := Some(if l.drain.accepting then Accepted else RefusedReg)])
    case EndAccess(x, init) =>
      l.(objects := Visited(l, tols, x, Access(l.busy[x].value, init)), busy := l.busy[x := None])
    case AccessAgain(x, init) => l.(objects := Visited(l, tols, x, Access(Accepted, init)))
    case DrainMove(m) =>
      if m.Execute? then
        var x := l.drain.chain[0];
        assert x in l.drain.chain;
        l.(drain := Make(l.drain, m), objects := Visited(l, tols, x, Finalization(Returns)),
           missed := if l.objects[x].phase.initialized then l.missed else l.missed + {x})
      else l.(drain := Make(l.drain, m))
  }

  /** What ties the record of one object to where it is in the exit manager. */
  predicate Tied(tol: Tolerance, h: History, busy: Option<Reply>, asked: bool, accepted: bool, executed: bool,
                 missed: bool)
  {
    && HistoryOk(tol, h)
    && (busy.Some? ==> h.phase == EMPTY && !busy.value.PanickedReg?)
    && (busy.Some? ==> (busy.value.Accepted? <==> accepted))
    && (asked <==> h.regCalls == 1 || busy.Some?)
    && (h.links == 1 <==> accepted && busy.None?)
    && (executed ==> accepted)
    && h.finCalls == (if executed && !missed then 1 else 0)
    && (missed ==> executed)
  }

  predicate ObjectOk(l: Life, tols: seq<Tolerance>, x: nat)
    requires |l.objects| == |l.busy| == |tols| && x < |tols|
  {
    Tied(tols[x], l.objects[x], l.busy[x], x in l.drain.attempted, x in l.drain.accepted, x in l.drain.executed,
      x in l.missed)
  }

  ghost predicate LifeOk(l: Life, tols: seq<Tolerance>) {
    && Good(l.drain) && Sized(l, tols)
    && (forall x :: x in l.drain.attempted ==> x < |tols|)
    && (forall x: nat {:trigger l.objects[x]} :: x < |tols| ==> ObjectOk(l, tols, x))
  }

  lemma Counted(d: Drain<nat>, x: nat)
    requires Good(d) && x in Ahead(d)
    ensures x !in d.executed && x in d.accepted
  {
    Conservation(d);
    DistinctCounts(d.accepted);
    assert multiset(d.accepted)[x] >= multiset(d.executed)[x] + multiset(Ahead(d))[x];
    assert multiset(Ahead(d))[x] > 0;
    assert multiset(d.accepted)[x] > 0;
  }

  lemma LinkedAreAccepted(d: Drain<nat>)
    requires Good(d)
    ensures forall x :: x in d.chain || x in d.pending || x in d.executed ==> x in d.accepted
  {
    Conservation(d);
    forall x | x in d.chain || x in d.pending || x in d.executed
      ensures x in d.accepted
    {
      assert x in d.chain ==> x in Ahead(d) || x in d.executed;
      assert x in multiset(d.accepted);
    }
  }

  /** An object in the empty phase that nobody initializes has not asked for registration. */
  lemma FirstRegistration(l: Life, tols: seq<Tolerance>, x: nat)
    requires LifeOk(l, tols) && Ready(l, tols, BeginAccess(x))
    ensures Can(l.drain, Register(x)) && x !in l.drain.pending && x !in l.drain.chain
  {
    assert ObjectOk(l, tols, x);
    assert l.objects[x] == l.objects[x];
    LinkedAreAccepted(l.drain);
  }

  // ---------- every act keeps the invariant ----------

  lemma BeginOk(l: Life, tols: seq<Tolerance>, x: nat)
    requires LifeOk(l, tols) && Ready(l, tols, BeginAccess(x)) && x !in l.drain.attempted
    ensures LifeOk(Perform(l, tols, BeginAccess(x)), tols)
  {
    var k := Perform(l, tols, BeginAccess(x));
    MakeGood(l.drain, Register(x));
    forall y: nat | y < |tols|
      ensures ObjectOk(k, tols, y)
    {
      assert l.objects[y] == l.objects[y];
      assert ObjectOk(l, tols, y);
    }
  }

  /** What the first attempt does to the record. */
  lemma FirstAttempt(tol: Tolerance, h: History, reg: Reply, init: Outcome)
    requires HistoryOk(tol, h) && h.phase == EMPTY
    ensures var k := Visit(tol, h, Access(reg, init));
      HistoryOk(tol, k) && k.regCalls == 1 && k.links == Bit(reg.Accepted?) && k.finCalls == h.finCalls
  {
    ShallInitMeans(tol, h.phase);
    VisitOk(tol, h, Access(reg, init));
  }

  lemma EndTied(tol: Tolerance, h: History, k: History, reg: Reply, asked: bool, accepted: bool, executed: bool,
                missed: bool)
    requires Tied(tol, h, Some(reg), asked, accepted, executed, missed)
    requires HistoryOk(tol, k) && k.regCalls == 1 && k.links == Bit(reg.Accepted?) && k.finCalls == h.finCalls
    ensures Tied(tol, k, None, asked, accepted, executed, missed)
  {
  }

  /** The record of `x` becomes `k` and its attempt is over. */
  function Ended(l: Life, x: nat, k: History): Life
    requires x < |l.objects| == |l.busy|
  {
    l.(objects := l.objects[x := k], busy := l.busy[x := None])
  }

  lemma EndedOk(l: Life, tols: seq<Tolerance>, x: nat, k: History)
    requires LifeOk(l, tols) && x < |tols| && l.busy[x].Some?
    requires HistoryOk(tols[x], k) && k.regCalls == 1 && k.links == Bit(l.busy[x].value.Accepted?)
    requires k.finCalls == l.objects[x].finCalls
    ensures LifeOk(Ended(l, x, k), tols)
  {
    var m, d := Ended(l, x, k), l.drain;
    forall y: nat | y < |tols|
      ensures ObjectOk(m, tols, y)
    {
      assert l.objects[y] == l.objects[y];
      assert ObjectOk(l, tols, y);
      if y == x {
        EndTied(tols[x], l.objects[x], k, l.busy[x].value, x in d.attempted, x in d.accepted, x in d.executed,
          x in l.missed);
      }
    }
  }

  lemma EndOk(l: Life, tols: seq<Tolerance>, x: nat, init: Outcome)
    requires LifeOk(l, tols) && Ready(l, tols, EndAccess(x, init))
    ensures LifeOk(Perform(l, tols, EndAccess(x, init)), tols)
  {
    assert l.objects[x] == l.objects[x];
    assert ObjectOk(l, tols, x);
    FirstAttempt(tols[x], l.objects[x], l.busy[x].value, init);
    EndedOk(l, tols, x, Visit(tols[x], l.objects[x], Access(l.busy[x].value, init)));
  }

  /** What a later attempt does to it. */
  lemma LaterAttempt(tol: Tolerance, h: History, init: Outcome)
    requires HistoryOk(tol, h) && h.phase != EMPTY
    ensures var k := Visit(tol, h, Access(Accepted, init));
      HistoryOk(tol, k) && k.phase != EMPTY && k.regCalls == h.regCalls && k.links == h.links && k.finCalls == h.finCalls
  {
    ShallInitMeans(tol, h.phase);
    VisitOk(tol, h, Access(Accepted, init));
  }

  lemma AgainOk(l: Life, tols: seq<Tolerance>, x: nat, init: Outcome)
    requires LifeOk(l, tols) && Ready(l, tols, AccessAgain(x, init))
    ensures LifeOk(Perform(l, tols, AccessAgain(x, init)), tols)
  {
    var k := Perform(l, tols, AccessAgain(x, init));
    assert l.objects[x] == l.objects[x];
    LaterAttempt(tols[x], l.objects[x], init);
    forall y: nat | y < |tols|
      ensures ObjectOk(k, tols, y)
    {
      assert l.objects[y] == l.objects[y];
      if y != x { assert k.objects[y] == l.objects[y]; }
    }
  }

  lemma ExecuteOk(l: Life, tols: seq<Tolerance>)
    requires LifeOk(l, tols) && Can(l.drain, Execute)
    ensures LifeOk(Perform(l, tols, DrainMove(Execute)), tols)
  {
    var k := Perform(l, tols, DrainMove(Execute));
    var x := l.drain.chain[0];
    MakeGood(l.drain, Execute);
    Counted(l.drain, x);
    VisitOk(tols[x], l.objects[x], Finalization(Returns));
    forall y: nat | y < |tols|
      ensures ObjectOk(k, tols, y)
    {
      assert l.objects[y] == l.objects[y];
    }
  }

  lemma QuietOk(l: Life, tols: seq<Tolerance>, m: Move<nat>)
    requires LifeOk(l, tols) && Can(l.drain, m) && !m.Register? && !m.Execute?
    ensures LifeOk(Perform(l, tols, DrainMove(m)), tols)
  {
    var k := Perform(l, tols, DrainMove(m));
    MakeGood(l.drain, m);
    LinkedAreAccepted(k.drain);
    forall y: nat | y < |tols|
      ensures ObjectOk(k, tols, y)
    {
      assert l.objects[y] == l.objects[y];
    }
  }

  lemma PerformOk(l: Life, tols: seq<Tolerance>, a: Act)
    requires LifeOk(l, tols) && Ready(l, tols, a)
    ensures a.BeginAccess? ==> a.x !in l.drain.attempted
    ensures LifeOk(Perform(l, tols, a), tols)
  {
    match a
    case BeginAccess(x) => FirstRegistration(l, tols, x); BeginOk(l, tols, x);
    case EndAccess(x, init) => EndOk(l, tols, x, init);
    case AccessAgain(x, init) => AgainOk(l, tols, x, init);
    case DrainMove(m) => if m.Execute? { ExecuteOk(l, tols); } else { QuietOk(l, tols, m); }
  }

  // ---------- runs ----------

  function Birth(n: nat): Life { Life(Initial<nat>(), seq(n, _ => UNUSED), seq(n, _ => None), {}) }

  ghost predicate Lives(tols: seq<Tolerance>, acts: seq<Act>, l: Life)
    decreases |acts|
  {
    if acts == [] then l == Birth(|tols|)
    else
      var last := acts[|acts| - 1];
      exists k: Life :: Lives(tols, acts[..|acts| - 1], k) && Ready(k, tols, last)
        && (last.BeginAccess? ==> last.x !in k.drain.attempted) && Perform(k, tols, last) == l
  }

  lemma {:induction false} LivesOk(tols: seq<Tolerance>, acts: seq<Act>, l: Life)
    requires Lives(tols, acts, l)
    ensures LifeOk(l, tols)
    decreases |acts|
  {
    if acts == [] {
      InitialGood<nat>();
      forall x: nat | x < |tols|
        ensures ObjectOk(l, tols, x)
      {
        assert l.objects[x] == UNUSED;
      }
    } else {
      var last := acts[|acts| - 1];
      var k: Life :| Lives(tols, acts[..|acts| - 1], k) && Ready(k, tols, last)
        && (last.BeginAccess? ==> last.x !in k.drain.attempted) && Perform(k, tols, last) == l;
      LivesOk(tols, acts[..|acts| - 1], k);
      PerformOk(k, tols, last);
    }
  }

  lemma LivesMore(tols: seq<Tolerance>, acts: seq<Act>, l: Life, a: Act)
    requires Lives(tols, acts, l) && Ready(l, tols, a)
    ensures a.BeginAccess? ==> a.x !in l.drain.attempted
    ensures Lives(tols, acts + [a], Perform(l, tols, a))
  {
    LivesOk(tols, acts, l);
    PerformOk(l, tols, a);
    var more, k := acts + [a], Perform(l, tols, a);
    assert more[..|more| - 1] == acts;
    assert Lives(tols, more[..|more| - 1], l) && Ready(l, tols, more[|more| - 1])
      && (more[|more| - 1].BeginAccess? ==> more[|more| - 1].x !in l.drain.attempted)
      && Perform(l, tols, more[|more| - 1]) == k;
  }

  // ---------- theorems ----------

  /** Finalizer safety: in every run the finalizer of an object runs at most once, only after its
      initialization returned, and never without the object's registration having been accepted. */
  lemma FinalizedAtMostOnce(tols: seq<Tolerance>, acts: seq<Act>, l: Life, x: nat)
    requires Lives(tols, acts, l) && x < |tols|
    ensures Sized(l, tols)
    ensures var h := l.objects[x];
      h.finCalls <= 1 && (h.finCalls == 1 ==> h.phase.initialized && h.initReturns == 1 && x in l.drain.accepted)
  {
    LivesOk(tols, acts, l);
    assert l.objects[x] == l.objects[x];
    assert ObjectOk(l, tols, x);
  }

  /** An object is linked at most once: when it asks, it is in no list, so its `next` is None and the
      double-registration assertion holds. */
  lemma NeverLinkedTwice(tols: seq<Tolerance>, acts: seq<Act>, l: Life, x: nat)
    requires Lives(tols, acts, l) && Ready(l, tols, BeginAccess(x))
    ensures x !in l.drain.attempted && x !in l.drain.pending && x !in l.drain.chain
  {
    LivesOk(tols, acts, l);
    FirstRegistration(l, tols, x);
  }

  /** When its turn comes the finalizer of an object runs if and only if the object is initialized. */
  lemma TurnDecides(tols: seq<Tolerance>, acts: seq<Act>, l: Life)
    requires Lives(tols, acts, l) && Ready(l, tols, DrainMove(Execute))
    ensures var x := l.drain.chain[0]; x < |tols|
    ensures var x := l.drain.chain[0]; var k := Perform(l, tols, DrainMove(Execute));
      l.objects[x].finCalls == 0 && k.objects[x].finCalls == Bit(l.objects[x].phase.initialized)
  {
    LivesOk(tols, acts, l);
    var x := l.drain.chain[0];
    assert x in l.drain.chain;
    assert l.objects[x] == l.objects[x];
    Counted(l.drain, x);
    assert ObjectOk(l, tols, x);
  }

  /** After a drain that closed registration every registered object has had its one turn: its finalizer ran
      exactly once, or it was not initialized at its turn. */
  lemma EveryoneHadATurn(tols: seq<Tolerance>, acts: seq<Act>, l: Life, x: nat)
    requires Lives(tols, acts, l) && l.drain.stage.Finished? && !l.drain.accepting && x < |tols|
    ensures Sized(l, tols)
    ensures x in l.drain.accepted ==> (l.objects[x].finCalls == 1 <==> x !in l.missed)
    ensures x !in l.drain.accepted ==> l.objects[x].finCalls == 0
  {
    LivesOk(tols, acts, l);
    FinishedGood(l.drain);
    assert x in multiset(l.drain.executed) <==> x in multiset(l.drain.accepted);
    assert l.objects[x] == l.objects[x];
    assert ObjectOk(l, tols, x);
  }

  /** The object 0 is being initialized, with its registration accepted, and the drain is as given. */
  function Being(d: Drain<nat>, missed: set<nat>): Life { Life(d, [UNUSED], [Some(Accepted)], missed) }

  function Moment(pending: seq<nat>, accepting: bool, chain: seq<nat>, stage: Stage, executed: seq<nat>,
                  cuts: seq<nat>): ExitDrain.Drain<nat>
  {
    ExitDrain.Drain(pending, accepting, chain, stage, [0], [0], executed, cuts)
  }

  lemma BeingRegistered(tols: seq<Tolerance>) returns (acts: seq<Act>, l: Life)
    requires |tols| == 1
    ensures Lives(tols, acts, l) && l == Being(Moment([0], true, [], Unstarted, [], [0]), {})
  {
    assert Birth(1).objects == [UNUSED] && Birth(1).busy == [None];
    LivesMore(tols, [], Birth(1), BeginAccess(0));
    acts, l := [] + [BeginAccess(0)], Perform(Birth(1), tols, BeginAccess(0));
  }

  lemma MissTurns(tols: seq<Tolerance>, acts: seq<Act>, l: Life, a: Act, k: Life) returns (more: seq<Act>)
    requires Lives(tols, acts, l) && Ready(l, tols, a) && !a.BeginAccess? && k == Perform(l, tols, a)
    ensures Lives(tols, more, k)
  {
    LivesMore(tols, acts, l, a);
    more := acts + [a];
  }

  const AT_TURN := Being(Moment([], true, [0], AtNode, [], [0, 1]), {})
  const MISSED := Being(Moment([], true, [0], NodeDone, [0], [0, 1]), {0})
  const ALONE := Being(Moment([], true, [], Exhausted, [0], [0, 1]), {0})
  const CLOSED := Being(Moment([], false, [], Finished, [0], [0, 1, 1]), {0})

  lemma ItsTurn(tols: seq<Tolerance>) returns (acts: seq<Act>)
    requires |tols| == 1
    ensures Lives(tols, acts, AT_TURN)
  {
    var l;
    acts, l := BeingRegistered(tols);
    acts := MissTurns(tols, acts, l, DrainMove(Start), AT_TURN);
  }

  lemma ItsTurnMissed(tols: seq<Tolerance>) returns (acts: seq<Act>)
    requires |tols| == 1
    ensures Lives(tols, acts, MISSED)
  {
    acts := ItsTurn(tols);
    assert [UNUSED][0 := UNUSED] == [UNUSED];
    acts := MissTurns(tols, acts, AT_TURN, DrainMove(Execute), MISSED);
  }

  lemma ThenClosed(tols: seq<Tolerance>) returns (acts: seq<Act>)
    requires |tols| == 1
    ensures Lives(tols, acts, CLOSED)
  {
    acts := ItsTurnMissed(tols);
    acts := MissTurns(tols, acts, MISSED, DrainMove(TakeNext), ALONE);
    acts := MissTurns(tols, acts, ALONE, DrainMove(Refill), CLOSED);
  }

  lemma AcceptedInitializes(tol: Tolerance, h: History)
    requires h.phase == EMPTY
    ensures var k := Visit(tol, h, Access(Accepted, Returns)); k.phase.initialized && k.finCalls == h.finCalls
  {
    ShallInitMeans(tol, h.phase);
  }

  lemma InitializesAfterwards(tols: seq<Tolerance>, l: Life)
    requires |tols| == 1 && Sized(l, tols) && l.busy[0] == Some(Accepted) && l.objects[0].phase == EMPTY
    ensures var k := Perform(l, tols, EndAccess(0, Returns));
      && k.drain == l.drain && |k.objects| == 1
      && k.objects[0].phase.initialized && k.objects[0].finCalls == l.objects[0].finCalls
  {
    AcceptedInitializes(tols[0], l.objects[0]);
  }

  /** An object that is being initialized when its turn comes is never finalized: the drain does not wait. */
  lemma InitializedButMissed(tols: seq<Tolerance>) returns (acts: seq<Act>, l: Life)
    requires |tols| == 1
    ensures Lives(tols, acts, l) && l.drain.stage.Finished? && !l.drain.accepting
    ensures l.drain.accepted == [0] && |l.objects| == 1
    ensures l.objects[0].phase.initialized && l.objects[0].finCalls == 0
  {
    acts := ThenClosed(tols);
    acts, l := MissedThenInitialized(tols, acts, CLOSED);
  }

  lemma MissedThenInitialized(tols: seq<Tolerance>, before: seq<Act>, k: Life) returns (acts: seq<Act>, l: Life)
    requires |tols| == 1 && Lives(tols, before, k) && Sized(k, tols)
    requires k.busy[0] == Some(Accepted) && k.objects[0] == UNUSED
    ensures Lives(tols, acts, l) && l.drain == k.drain && |l.objects| == 1
    ensures l.objects[0].phase.initialized && l.objects[0].finCalls == 0
  {
    InitializesAfterwards(tols, k);
    l := Perform(k, tols, EndAccess(0, Returns));
    acts := MissTurns(tols, before, k, EndAccess(0, Returns), l);
  }
}
