/** The register of objects to finalize and its drain at program exit (src/exit_sequentializer.rs:40-103),
    as a transition system: any number of threads, and the finalizers themselves, may register while the
    drain runs.  A move is one critical section of REGISTER or of a node, or one finalizer. */
module ExitDrain {

  datatype Stage = Unstarted | AtNode | NodeDone | Exhausted | Finished

  /** `pending` is the list behind REGISTER.first, `chain` what the drain holds with its current node in
      front.  `accepted`, `attempted` and `executed` are history in order of time; `cuts` are the numbers of
      accepted objects at each taking of REGISTER.first. */
  datatype Drain<T> = Drain(pending: seq<T>, accepting: bool, chain: seq<T>, stage: Stage,
                            attempted: seq<T>, accepted: seq<T>, executed: seq<T>, cuts: seq<nat>)

  function Initial<T>(): Drain<T> { Drain([], true, [], Unstarted, [], [], [], [0]) }

  datatype Move<T> = Register(x: T) | Start | Execute | TakeNext | Refill

  /** An object asks for its registration at most once, module LazyInit. */
  predicate Can<T(==)>(d: Drain<T>, m: Move<T>) {
    match m
    case Register(x) => x !in d.attempted
    case Start => d.stage.Unstarted?
    case Execute => d.stage.AtNode? && d.chain != []
    case TakeNext => d.stage.NodeDone? && d.chain != []
    case Refill => d.stage.Exhausted?
  }

  /** The drain goes on with the list it took. */
  function Taken<T>(d: Drain<T>): Drain<T> {
    d.(chain := d.pending, pending := [], cuts := d.cuts + [|d.accepted|],
       stage := if d.pending == [] then Finished else AtNode)
  }

  function Make<T(==)>(d: Drain<T>, m: Move<T>): Drain<T>
    requires Can(d, m)
  {
    match m
    case Register(x) =>
      if d.accepting then d.(pending := [x] + d.pending, accepted := d.accepted + [x], attempted := d.attempted + [x])
      else d.(attempted := d.attempted + [x])
    case Start => Taken(d)
    case Execute => d.(executed := d.executed + [d.chain[0]], stage := NodeDone)
    case TakeNext => d.(chain := d.chain[1..], stage := if |d.chain| == 1 then Exhausted else AtNode)
    case Refill => Taken(d).(accepting := d.accepting && d.pending != [])
  }

  // ---------- the order of execution ----------

  function Reverse<T>(s: seq<T>): (r: seq<T>)
    ensures |r| == |s| && forall i: nat :: i < |s| ==> r[i] == s[|s| - 1 - i]
  {
    if s == [] then [] else Reverse(s[1..]) + [s[0]]
  }

  /** Cuts run upwards from 0 to at most the number of accepted objects. */
  predicate Increasing(cuts: seq<nat>, n: nat) {
    && cuts != [] && cuts[0] == 0 && cuts[|cuts| - 1] <= n
    && forall i: nat :: i + 1 < |cuts| ==> cuts[i] <= cuts[i + 1]
  }

  /** The objects taken so far, batch after batch, each batch last in first out. */
  function Batches<T>(accepted: seq<T>, cuts: seq<nat>): seq<T>
    requires Increasing(cuts, |accepted|)
    decreases |cuts|
  {
    if |cuts| == 1 then []
    else
      var n := |cuts| - 1;
      Batches(accepted, cuts[..n]) + Reverse(accepted[cuts[n - 1]..cuts[n]])
  }

  // ---------- the invariant ----------

  /** What of the chain has not been executed. */
  function Ahead<T>(d: Drain<T>): seq<T> {
    if d.stage.NodeDone? && d.chain != [] then d.chain[1..] else d.chain
  }

  predicate Distinct<T(==)>(s: seq<T>) { forall i, j :: 0 <= i < j < |s| ==> s[i] != s[j] }

  /** What was taken is executed or ahead, in the order of the batches; the rest is pending. */
  ghost predicate Ordered<T>(d: Drain<T>) {
    && Increasing(d.cuts, |d.accepted|)
    && d.pending == Reverse(d.accepted[d.cuts[|d.cuts| - 1]..])
    && d.executed + Ahead(d) == Batches(d.accepted, d.cuts)
  }

  ghost predicate Good<T>(d: Drain<T>) {
    && Ordered(d)
    && Distinct(d.attempted)
    && (forall x :: x in d.accepted ==> x in d.attempted)
    && Distinct(d.accepted)
    && (d.stage.AtNode? || d.stage.NodeDone? <==> d.chain != [])
    && (d.stage.NodeDone? ==> d.executed != [] && d.executed[|d.executed| - 1] == d.chain[0])
    && (d.stage.Unstarted? ==> d.executed == [] && |d.cuts| == 1)
    && (!d.stage.Unstarted? ==> |d.cuts| > 1)
    && (!d.accepting ==> d.stage.Finished? && d.pending == [])
    && (d.stage.Finished? ==> (d.accepting <==> d.cuts[1] == 0))
    && (d.stage.Finished? && d.accepting ==> |d.cuts| == 2)
    && (d.stage.AtNode? || d.stage.NodeDone? || d.stage.Exhausted? ==> d.cuts[1] > 0)
  }

  lemma {:induction false} BatchesMore<T>(accepted: seq<T>, more: seq<T>, cuts: seq<nat>)
    requires Increasing(cuts, |accepted|)
    ensures Increasing(cuts, |accepted + more|) && Batches(accepted + more, cuts) == Batches(accepted, cuts)
    decreases |cuts|
  {
    if |cuts| > 1 {
      var n := |cuts| - 1;
      CutsPrefix(cuts, n, |accepted|);
      BatchesMore(accepted, more, cuts[..n]);
      assert (accepted + more)[cuts[n - 1]..cuts[n]] == accepted[cuts[n - 1]..cuts[n]];
    }
  }

  lemma CutsPrefix(cuts: seq<nat>, n: nat, bound: nat)
    requires Increasing(cuts, bound) && 1 <= n <= |cuts|
    ensures Increasing(cuts[..n], bound)
  {
    CutsOrdered(cuts, bound, n - 1);
  }

  lemma {:induction false} CutsOrdered(cuts: seq<nat>, bound: nat, i: nat)
    requires Increasing(cuts, bound) && i < |cuts|
    ensures cuts[i] <= cuts[|cuts| - 1]
    decreases |cuts| - i
  {
    if i + 1 < |cuts| { CutsOrdered(cuts, bound, i + 1); }
  }

  lemma ReverseSnoc<T>(s: seq<T>, x: T)
    ensures Reverse(s + [x]) == [x] + Reverse(s)
  {
    var r, t := Reverse(s + [x]), [x] + Reverse(s);
    assert forall i: nat :: i < |r| ==> r[i] == t[i];
  }

  lemma RegisterOrdered<T>(d: Drain<T>, x: T)
    requires Ordered(d) && x !in d.attempted && d.accepting
    ensures Ordered(Make(d, Register(x)))
  {
    var cut := d.cuts[|d.cuts| - 1];
    BatchesMore(d.accepted, [x], d.cuts);
    assert (d.accepted + [x])[cut..] == d.accepted[cut..] + [x];
    ReverseSnoc(d.accepted[cut..], x);
  }

  lemma RegisterGood<T>(d: Drain<T>, x: T)
    requires Good(d) && x !in d.attempted
    ensures Good(Make(d, Register(x)))
  {
    if d.accepting { RegisterOrdered(d, x); }
  }

  lemma TakenGood<T>(d: Drain<T>)
    requires Good(d) && (d.stage.Unstarted? || d.stage.Exhausted?)
    ensures Ordered(Taken(d))
  {
    var t := Taken(d);
    var n := |d.cuts|;
    assert t.cuts[..n] == d.cuts;
    assert d.accepted[d.cuts[n - 1]..|d.accepted|] == d.accepted[d.cuts[n - 1]..];
    assert d.executed + Ahead(d) == d.executed;
  }

  lemma StartGood<T>(d: Drain<T>)
    requires Good(d) && d.stage.Unstarted?
    ensures Good(Make(d, Start))
  {
    TakenGood(d);
    assert |d.cuts| == 1 && d.pending == Reverse(d.accepted[0..]);
  }

  lemma RefillGood<T>(d: Drain<T>)
    requires Good(d) && d.stage.Exhausted?
    ensures Good(Make(d, Refill))
  {
    TakenGood(d);
  }

  lemma ExecuteGood<T>(d: Drain<T>)
    requires Good(d) && Can(d, Execute)
    ensures Good(Make(d, Execute))
  {
    assert d.executed + d.chain == (d.executed + [d.chain[0]]) + d.chain[1..];
  }

  lemma NextGood<T>(d: Drain<T>)
    requires Good(d) && Can(d, TakeNext)
    ensures Good(Make(d, TakeNext))
  {
  }

  lemma MakeGood<T>(d: Drain<T>, m: Move<T>)
    requires Good(d) && Can(d, m)
    ensures Good(Make(d, m))
  {
    match m
    case Register(x) => RegisterGood(d, x);
    case Start => StartGood(d);
    case Execute => ExecuteGood(d);
    case TakeNext => NextGood(d);
    case Refill => RefillGood(d);
  }

  // ---------- runs ----------

  ghost predicate Drains<T(!new)>(moves: seq<Move<T>>, d: Drain<T>)
    decreases |moves|
  {
    if moves == [] then d == Initial<T>()
    else
      var last := moves[|moves| - 1];
      exists r: Drain<T> :: Drains(moves[..|moves| - 1], r) && Can(r, last) && Make(r, last) == d
  }

  lemma {:induction false} DrainsGood<T(!new)>(moves: seq<Move<T>>, d: Drain<T>)
    requires Drains(moves, d)
    ensures Good(d)
    decreases |moves|
  {
    if moves != [] {
      var last := moves[|moves| - 1];
      var r: Drain<T> :| Drains(moves[..|moves| - 1], r) && Can(r, last) && Make(r, last) == d;
      DrainsGood(moves[..|moves| - 1], r);
      MakeGood(r, last);
    } else {
      InitialGood<T>();
    }
  }

  lemma InitialGood<T>()
    ensures Good(Initial<T>())
  {
  }

  // ---------- conservation ----------

  lemma ReverseKeeps<T>(s: seq<T>)
    ensures multiset(Reverse(s)) == multiset(s)
    decreases |s|
  {
    if s != [] {
      ReverseKeeps(s[1..]);
      assert s == [s[0]] + s[1..];
    }
  }

  lemma {:induction false} BatchesKeep<T>(accepted: seq<T>, cuts: seq<nat>)
    requires Increasing(cuts, |accepted|)
    ensures multiset(Batches(accepted, cuts)) == multiset(accepted[..cuts[|cuts| - 1]])
    decreases |cuts|
  {
    if |cuts| > 1 {
      var n := |cuts| - 1;
      CutsPrefix(cuts, n, |accepted|);
      BatchesKeep(accepted, cuts[..n]);
      ReverseKeeps(accepted[cuts[n - 1]..cuts[n]]);
      assert accepted[..cuts[n]] == accepted[..cuts[n - 1]] + accepted[cuts[n - 1]..cuts[n]];
    }
  }

  /** Conservation: at every moment each accepted object is executed, ahead in the drain, or pending. */
  lemma Conservation<T>(d: Drain<T>)
    requires Ordered(d)
    ensures multiset(d.accepted) == multiset(d.executed) + multiset(Ahead(d)) + multiset(d.pending)
  {
    var cut := d.cuts[|d.cuts| - 1];
    BatchesKeep(d.accepted, d.cuts);
    ReverseKeeps(d.accepted[cut..]);
    assert d.accepted == d.accepted[..cut] + d.accepted[cut..];
    assert multiset(d.executed + Ahead(d)) == multiset(d.executed) + multiset(Ahead(d));
  }

  /** The promise of the drain.  If the list was not empty when the drain began, it ends with registration
      closed and every object whose registration was accepted, then or during the drain, executed exactly
      once.  Registration is closed by nothing else. */
  lemma ExecutedExactlyOnce<T(!new)>(moves: seq<Move<T>>, d: Drain<T>)
    requires Drains(moves, d) && d.stage.Finished?
    ensures |d.cuts| > 1 && (!d.accepting <==> d.cuts[1] > 0)
    ensures !d.accepting ==> multiset(d.executed) == multiset(d.accepted) && Distinct(d.executed)
    ensures d.accepting ==> d.executed == []
  {
    DrainsGood(moves, d);
    FinishedGood(d);
  }

  lemma FinishedGood<T>(d: Drain<T>)
    requires Good(d) && d.stage.Finished?
    ensures !d.accepting ==> multiset(d.executed) == multiset(d.accepted) && Distinct(d.executed)
    ensures d.accepting ==> d.executed == []
  {
    Conservation(d);
    if !d.accepting {
      SameCounts(d.accepted, d.executed);
    } else {
      StartedEmpty(d);
    }
  }

  lemma StartedEmpty<T>(d: Drain<T>)
    requires Good(d) && d.stage.Finished? && d.accepting
    ensures d.executed == []
  {
    assert d.accepted[0..0] == [];
    assert d.cuts[..1] == [0];
    assert Batches(d.accepted, d.cuts) == [];
  }

  lemma {:induction false} DistinctCounts<T>(s: seq<T>)
    ensures Distinct(s) <==> forall x :: multiset(s)[x] <= 1
    decreases |s|
  {
    if s != [] {
      var n := |s| - 1;
      var t := s[..n];
      DistinctCounts(t);
      assert s == t + [s[n]];
      assert multiset(s) == multiset(t) + multiset{s[n]};
      if Distinct(s) {
        assert s[n] !in t;
      } else if Distinct(t) {
        assert s[n] in t by { AddedTwice(t, s[n], s); }
        assert multiset(s)[s[n]] >= 2;
      } else {
        var x :| multiset(t)[x] > 1;
        assert multiset(s)[x] > 1;
      }
    }
  }

  lemma AddedTwice<T>(t: seq<T>, x: T, s: seq<T>)
    requires s == t + [x] && Distinct(t) && !Distinct(s)
    ensures x in t
  {
  }

  lemma SameCounts<T>(s: seq<T>, t: seq<T>)
    requires Distinct(s) && multiset(s) == multiset(t)
    ensures Distinct(t)
  {
    DistinctCounts(s);
    DistinctCounts(t);
  }

  /** Last in first out within each batch, batch after batch, at every moment of the drain. */
  lemma ExecutionOrder<T(!new)>(moves: seq<Move<T>>, d: Drain<T>)
    requires Drains(moves, d)
    ensures Increasing(d.cuts, |d.accepted|) && d.executed <= Batches(d.accepted, d.cuts)
    ensures d.stage.Finished? && !d.accepting ==> d.executed == Batches(d.accepted, d.cuts)
  {
    DrainsGood(moves, d);
  }

  /** Registration closes at an instant when nothing is pending or ahead, and then refuses for ever. */
  lemma ClosesForGood<T(!new)>(moves: seq<Move<T>>, d: Drain<T>, m: Move<T>)
    requires Drains(moves, d) && Can(d, m)
    ensures d.accepting && !Make(d, m).accepting ==> m.Refill? && d.pending == [] && Ahead(d) == []
    ensures !d.accepting ==> !Make(d, m).accepting && Make(d, m).accepted == d.accepted && d.pending == []
  {
    DrainsGood(moves, d);
  }

  /** The drain is over, and `x` was accepted but not executed. */
  predicate LeftBehind<T(==)>(d: Drain<T>, x: T) {
    d.stage.Finished? && d.accepting && d.accepted == [x] && d.executed == []
  }

  /** A drain that finds the list empty leaves registration open: what registers later is never executed. */
  lemma EmptyStartLeavesOpen<T(!new)>(x: T)
    ensures exists d: Drain<T> :: Drains([Start, Register(x)], d) && LeftBehind(d, x)
  {
    var d0 := Initial<T>();
    var d1 := Make(d0, Start);
    var d2 := Make(d1, Register(x));
    assert Drains([], d0);
    var one, two: seq<Move<T>> := [Start], [Start, Register(x)];
    assert one[..|one| - 1] == [] && two[..|two| - 1] == one;
    assert Drains(one[..|one| - 1], d0) && Can(d0, one[|one| - 1]) && Make(d0, one[|one| - 1]) == d1;
    assert Drains(one, d1);
    assert Drains(two[..|two| - 1], d1) && Can(d1, two[|two| - 1]) && Make(d1, two[|two| - 1]) == d2;
    assert Drains(two, d2);
  }

  // ---------- termination ----------

  function Rank(stage: Stage): nat {
    match stage
    case Unstarted => 4
    case Exhausted => 3
    case AtNode => 2
    case NodeDone => 1
    case Finished => 0
  }

  /** With `n` objects in the program: what is left to do. */
  function Left<T>(d: Drain<T>, n: nat): int {
    4 * (n - |d.attempted|) + 3 * (|d.chain| + |d.pending|) + Rank(d.stage)
  }

  lemma LeftDecreases<T>(d: Drain<T>, m: Move<T>, n: nat)
    requires Good(d) && Can(d, m)
    ensures Left(Make(d, m), n) < Left(d, n)
  {
  }

  lemma {:induction false} RunIsBounded<T(!new)>(moves: seq<Move<T>>, d: Drain<T>, n: nat)
    requires Drains(moves, d)
    ensures |moves| + Left(d, n) <= 4 * n + 4
    decreases |moves|
  {
    if moves != [] {
      var last := moves[|moves| - 1];
      var r: Drain<T> :| Drains(moves[..|moves| - 1], r) && Can(r, last) && Make(r, last) == d;
      DrainsGood(moves[..|moves| - 1], r);
      RunIsBounded(moves[..|moves| - 1], r, n);
      LeftDecreases(r, last, n);
    }
  }

  /** With finitely many objects the drain terminates, whatever registers meanwhile: no run is longer than
      4n + 4 moves, and until the drain is finished it has a move to make. */
  lemma DrainTerminates<T(!new)>(moves: seq<Move<T>>, d: Drain<T>, objects: set<T>)
    requires Drains(moves, d) && forall x :: x in d.attempted ==> x in objects
    ensures |moves| <= 4 * |objects| + 4
    ensures !d.stage.Finished? ==> Can(d, Start) || Can(d, Execute) || Can(d, TakeNext) || Can(d, Refill)
  {
    DrainsGood(moves, d);
    RunIsBounded(moves, d, |objects|);
    DistinctInside(d.attempted, objects);
  }

  lemma {:induction false} DistinctInside<T>(s: seq<T>, objects: set<T>)
    requires Distinct(s) && forall x :: x in s ==> x in objects
    ensures |s| <= |objects|
    decreases |s|
  {
    if s != [] {
      var n := |s| - 1;
      assert s[n] !in s[..n];
      DistinctInside(s[..n], objects - {s[n]});
    }
  }
}
