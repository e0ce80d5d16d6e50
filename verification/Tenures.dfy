/** Whole tenures of the write lock, in either locker: the phase that a release or a conversion publishes is
    the one its holder asked for last. */
module Tenures {
  import opened Phases
  import opened FutexProtocol
  import opened Lockers

  /** Client `c` makes the move `m`. */
  datatype Made = Made(c: nat, m: Move)

  /** A stretch of a run, from any state that can be reached. */
  ghost predicate Stretch(ls: seq<Locker>, ms: seq<Made>) {
    && |ls| == |ms| + 1 && Live(ls[0])
    && forall k: nat {:trigger ms[k]} :: k < |ms| ==> Goes(ls[k], ms[k].c, ms[k].m, ls[k + 1])
  }

  predicate SoleAt(l: Locker, c: nat) { c < Clients(l) && Sole(At(l, c)) }

  /** The phase that `c` set last by the moves from `a` on and before `b`, or else `p`. */
  function LastPlan(ms: seq<Made>, c: nat, p: Phase, a: nat, b: nat): Phase
    requires a <= b <= |ms|
  {
    if a == b then p
    else if ms[b - 1].c == c && PlanIn(ms[b - 1].m).Some? then PlanIn(ms[b - 1].m).value
    else LastPlan(ms, c, p, a, b - 1)
  }

  /** Among these moves `c` turned its guard into a read guard. */
  predicate Downgraded(ms: seq<Made>, c: nat, a: nat, b: nat)
    requires a <= b <= |ms|
  {
    exists j: nat :: a <= j < b && ms[j].c == c && Downgrades(ms[j].m)
  }

  /** The move `a` gives `c` the write lock, and the move `b` takes it away. */
  ghost predicate Tenure(ls: seq<Locker>, ms: seq<Made>, c: nat, a: nat, b: nat) {
    && Stretch(ls, ms) && a < b < |ms|
    && !SoleAt(ls[a], c) && !SoleAt(ls[b + 1], c) && c < Clients(ls[b + 1])
    && forall k: nat {:trigger ls[k]} :: a < k <= b ==> SoleAt(ls[k], c)
  }

  lemma {:induction false} StretchLive(ls: seq<Locker>, ms: seq<Made>, k: nat)
    requires Stretch(ls, ms) && k < |ls|
    ensures Live(ls[k])
    decreases k
  {
    if k > 0 {
      StretchLive(ls, ms, k - 1);
      GoesLive(ls[k - 1], ms[k - 1].c, ms[k - 1].m, ls[k]);
    }
  }

  /** A move of somebody else leaves the owner and the phase alone. */
  lemma OthersWait(l: Locker, d: nat, m: Move, k: Locker, c: nat)
    requires Live(l) && Goes(l, d, m, k) && SoleAt(l, c) && d != c
    ensures c < Clients(k) && At(k, c) == At(l, c) && PhaseOf(k) == PhaseOf(l)
  {
    GoesTurns(l, d, m, k);
    LiveApart(l);
  }

  /** An owner under phase `p` that found `found` and would publish `plan`; if it had a guard, `down` says that it
      has turned it into a read guard. */
  predicate StandsAs(x: Standing, p: Phase, found: Phase, plan: Phase, guard: bool, down: bool) {
    Sole(x) && p == found && x.plan == plan && (guard ==> if x.Owns? then !down else (x.keeps <==> down))
  }

  /** Where the owner stands before the move `k` of its tenure. */
  ghost predicate Stands(ls: seq<Locker>, ms: seq<Made>, c: nat, a: nat, k: nat)
    requires a < k <= |ms| < |ls|
  {
    && c < Clients(ls[k])
    && StandsAs(At(ls[k], c), PhaseOf(ls[k]), PhaseOf(ls[a]), LastPlan(ms, c, PhaseOf(ls[a]), a + 1, k),
         SoleAt(ls[a + 1], c) && At(ls[a + 1], c).Owns?, Downgraded(ms, c, a + 1, k))
  }

  lemma Begins(ls: seq<Locker>, ms: seq<Made>, c: nat, a: nat, b: nat)
    requires Tenure(ls, ms, c, a, b)
    ensures Stands(ls, ms, c, a, a + 1)
  {
    StretchLive(ls, ms, a);
    assert ms[a] == ms[a] && SoleAt(ls[a + 1], c);
    GoesTurns(ls[a], ms[a].c, ms[a].m, ls[a + 1]);
  }

  lemma DowngradedMore(ms: seq<Made>, c: nat, a: nat, k: nat)
    requires a <= k < |ms|
    ensures Downgraded(ms, c, a, k + 1) <==> Downgraded(ms, c, a, k) || (ms[k].c == c && Downgrades(ms[k].m))
  {
  }

  /** A client that publishes turns no guard into another. */
  lemma PublisherDowngradesNot(l: Locker, c: nat, m: Move, k: Locker)
    requires Goes(l, c, m, k) && c < Clients(l) && At(l, c).Publishes?
    ensures !Downgrades(m)
  {
  }

  /** The owner's own move, while it stays the owner. */
  lemma OwnerTurns(x: Standing, p: Phase, m: Move, y: Standing, q: Phase, found: Phase, plan: Phase,
                   guard: bool, down: bool)
    requires Turns(x, p, m, y, q) && StandsAs(x, p, found, plan, guard, down) && Sole(y)
    requires x.Publishes? ==> !Downgrades(m)
    ensures StandsAs(y, q, found, if PlanIn(m).Some? then PlanIn(m).value else plan, guard, down || Downgrades(m))
  {
  }

  lemma OwnMove(ls: seq<Locker>, ms: seq<Made>, c: nat, a: nat, b: nat, k: nat, j: nat)
    requires Tenure(ls, ms, c, a, b) && a < k < j <= b && j == k + 1 && Stands(ls, ms, c, a, k) && ms[k].c == c
    ensures Stands(ls, ms, c, a, j)
  {
    StretchLive(ls, ms, k);
    assert ms[k] == ms[k] && SoleAt(ls[j], c);
    DowngradedMore(ms, c, a + 1, k);
    GoesTurns(ls[k], c, ms[k].m, ls[j]);
    if At(ls[k], c).Publishes? { PublisherDowngradesNot(ls[k], c, ms[k].m, ls[j]); }
    OwnerTurns(At(ls[k], c), PhaseOf(ls[k]), ms[k].m, At(ls[j], c), PhaseOf(ls[j]), PhaseOf(ls[a]),
      LastPlan(ms, c, PhaseOf(ls[a]), a + 1, k), SoleAt(ls[a + 1], c) && At(ls[a + 1], c).Owns?,
      Downgraded(ms, c, a + 1, k));
  }

  lemma OtherMove(ls: seq<Locker>, ms: seq<Made>, c: nat, a: nat, b: nat, k: nat, j: nat)
    requires Tenure(ls, ms, c, a, b) && a < k < j <= b && j == k + 1 && Stands(ls, ms, c, a, k) && ms[k].c != c
    ensures Stands(ls, ms, c, a, j)
  {
    StretchLive(ls, ms, k);
    assert ms[k] == ms[k] && SoleAt(ls[j], c);
    DowngradedMore(ms, c, a + 1, k);
    OthersWait(ls[k], ms[k].c, ms[k].m, ls[j], c);
  }

  lemma {:induction false} Throughout(ls: seq<Locker>, ms: seq<Made>, c: nat, a: nat, b: nat, k: nat)
    requires Tenure(ls, ms, c, a, b) && a < k <= b
    ensures Stands(ls, ms, c, a, k)
    decreases k
  {
    if k == a + 1 {
      Begins(ls, ms, c, a, b);
    } else {
      var i := k - 1;
      Throughout(ls, ms, c, a, b, i);
      if ms[i].c == c { OwnMove(ls, ms, c, a, b, i, k); } else { OtherMove(ls, ms, c, a, b, i, k); }
    }
  }

  lemma Ends(ls: seq<Locker>, ms: seq<Made>, c: nat, a: nat, b: nat)
    requires Tenure(ls, ms, c, a, b) && Stands(ls, ms, c, a, b)
    ensures ms[b].c == c && PlanIn(ms[b].m).None? && At(ls[b], c).Publishes?
    ensures PhaseOf(ls[b + 1]) == At(ls[b], c).plan && (Inside(At(ls[b + 1], c)) <==> At(ls[b], c).keeps)
  {
    StretchLive(ls, ms, b);
    assert ms[b] == ms[b];
    if ms[b].c == c {
      GoesTurns(ls[b], c, ms[b].m, ls[b + 1]);
    } else {
      OthersWait(ls[b], ms[b].c, ms[b].m, ls[b + 1], c);
    }
  }

  /** What a write lock publishes.  During a tenure of `c` the phase stays what `c` found; the move that ends it
      publishes the phase that `c` set last, or the one it found if it set none.  And `c` is left with a read
      lock if and only if it turned its guard into one. */
  lemma PublishesLastPlan(ls: seq<Locker>, ms: seq<Made>, c: nat, a: nat, b: nat)
    requires Tenure(ls, ms, c, a, b)
    ensures forall k: nat :: a <= k <= b ==> PhaseOf(ls[k]) == PhaseOf(ls[a])
    ensures PhaseOf(ls[b + 1]) == LastPlan(ms, c, PhaseOf(ls[a]), a + 1, b + 1)
    ensures c < Clients(ls[a + 1]) && At(ls[a + 1], c).Owns? ==>
      (Inside(At(ls[b + 1], c)) <==> Downgraded(ms, c, a + 1, b + 1))
  {
    forall k: nat | a <= k <= b
      ensures PhaseOf(ls[k]) == PhaseOf(ls[a])
    {
      if k > a { Throughout(ls, ms, c, a, b, k); }
    }
    Throughout(ls, ms, c, a, b, b);
    Ends(ls, ms, c, a, b);
    assert ms[b] == ms[b];
    PublisherDowngradesNot(ls[b], c, ms[b].m, ls[b + 1]);
    DowngradedMore(ms, c, a + 1, b);
  }
}
