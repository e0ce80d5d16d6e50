/** The intrusive list of src/exit_sequentializer.rs:40-103: the register, the `next` field of every object,
    and the drain loop, each against the transition system of ExitDrain. */
module ExitManager {
  import opened ExitDrain

  /** The part of an object that the exit manager sees. */
  class Node {
    var next: Node?

    constructor ()
      ensures next == null
    {
      next := null;
    }
  }

  /** The `next` fields of `s` spell `s`. */
  ghost predicate Spelt(s: seq<Node>)
    reads s
  {
    forall i: nat {:trigger s[i]} :: i < |s| ==> s[i].next == if i + 1 < |s| then s[i + 1] else null
  }

  function Head(s: seq<Node>): Node? { if s == [] then null else s[0] }

  /** What is linked was asked for, and is linked once. */
  ghost predicate LinkedOnce(d: Drain<Node>) {
    Distinct(d.pending + d.chain) && forall x :: x in d.pending + d.chain ==> x in d.attempted
  }

  ghost predicate Booked(d: Drain<Node>) { Good(d) && LinkedOnce(d) }

  lemma Elements(s: seq<Node>, t: seq<Node>)
    ensures forall x :: x in s + t <==> x in s || x in t
  {
  }

  lemma RegisterLinked(d: Drain<Node>, x: Node)
    requires LinkedOnce(d) && x !in d.attempted
    ensures LinkedOnce(Make(d, Register(x)))
  {
    var e := Make(d, Register(x));
    Elements(d.pending, d.chain);
    Elements(e.pending, e.chain);
    if d.accepting { assert e.pending + e.chain == [x] + (d.pending + d.chain); }
  }

  lemma TakenLinked(d: Drain<Node>)
    requires LinkedOnce(d) && d.chain == []
    ensures LinkedOnce(Taken(d))
  {
    assert Taken(d).pending + Taken(d).chain == d.pending + d.chain;
  }

  lemma NextLinked(d: Drain<Node>)
    requires LinkedOnce(d) && Can(d, TakeNext)
    ensures LinkedOnce(Make(d, TakeNext))
  {
    var n := |d.pending|;
    var before, after := d.pending + d.chain, d.pending + d.chain[1..];
    assert before == d.pending + [d.chain[0]] + d.chain[1..];
    assert forall i: nat :: i < |after| ==> after[i] == before[if i < n then i else i + 1];
    Elements(d.pending, d.chain);
    Elements(d.pending, d.chain[1..]);
  }

  lemma MakeBooked(d: Drain<Node>, m: Move<Node>)
    requires Booked(d) && Can(d, m)
    ensures Booked(Make(d, m))
  {
    MakeGood(d, m);
    match m
    case Register(x) => RegisterLinked(d, x);
    case Start => TakenLinked(d);
    case Execute =>
    case TakeNext => NextLinked(d);
    case Refill => TakenLinked(d);
  }

  lemma NextBooked(d: Drain<Node>, e: Drain<Node>)
    requires Booked(d) && Can(d, TakeNext) && e == Make(d, TakeNext)
    ensures Booked(e) && Distinct(d.pending + d.chain)
    ensures e.accepting == d.accepting && e.pending == d.pending && e.chain == d.chain[1..]
    ensures e.attempted == d.attempted && if e.chain == [] then e.stage.Exhausted? else e.stage.AtNode?
  {
    MakeBooked(d, TakeNext);
  }

  lemma RefillBooked(d: Drain<Node>, e: Drain<Node>)
    requires Booked(d) && Can(d, Refill) && e == Make(d, Refill)
    ensures Booked(e) && d.chain == []
    ensures e.accepting == (d.accepting && d.pending != []) && e.pending == [] && e.chain == d.pending
    ensures e.attempted == d.attempted && if e.chain == [] then e.stage.Finished? else e.stage.AtNode?
  {
    MakeBooked(d, Refill);
  }

  class ExitRegister {
    const objects: set<Node>
    var first: Node?
    var registrationOpened: bool
    ghost var d: Drain<Node>

    /** `first` leads to the nodes of `pending`, those of `chain` are still linked, and every other object
        has no `next`: this is what the assertion against double registration tests. */
    ghost predicate Wired(pending: seq<Node>, chain: seq<Node>)
      reads `first, objects
    {
      && (forall x :: x in pending + chain ==> x in objects)
      && first == Head(pending) && Spelt(pending) && Spelt(chain)
      && (forall x :: x in objects && x !in pending + chain ==> x.next == null)
    }

    ghost predicate Valid()
      reads this, objects
    {
      Booked(d) && registrationOpened == d.accepting && Wired(d.pending, d.chain)
    }

    constructor (objects: set<Node>)
      requires forall x :: x in objects ==> x.next == null
      ensures Valid() && d == Initial<Node>() && this.objects == objects
    {
      this.objects := objects;
      first, registrationOpened := null, true;
      d := Initial<Node>();
    }

    /** The move is made. */
    ghost method Book(e: Drain<Node>)
      requires Booked(e) && registrationOpened == e.accepting && Wired(e.pending, e.chain)
      modifies `d
      ensures Valid() && d == e
    {
      d := e;
    }

    /** The linking of `finalize_at_exit`, exit_sequentializer.rs:92-97. */
    method Push(st: Node, ghost pending: seq<Node>, ghost chain: seq<Node>)
      requires Wired(pending, chain) && st in objects && st !in pending + chain
      modifies `first, st`next
      ensures Wired([st] + pending, chain)
    {
      Elements(pending, chain);
      Elements([st] + pending, chain);
      assert st.next == null;
      st.next := first;
      first := st;
    }

    /** `finalize_at_exit`, exit_sequentializer.rs:81-102. */
    method FinalizeAtExit(st: Node) returns (ok: bool)
      requires Valid() && st in objects && st !in d.attempted
      modifies this, st
      ensures Valid() && d == Make(old(d), Register(st)) && ok == old(registrationOpened)
    {
      MakeBooked(d, Register(st));
      ghost var e := Make(d, Register(st));
      ok := registrationOpened;
      if registrationOpened {
        Push(st, d.pending, d.chain);
      }
      Book(e);
    }

    /** `REGISTER.first.take()` when the drain holds nothing, exit_sequentializer.rs:58-60 and 70-74. */
    method TakeFirst(ghost pending: seq<Node>) returns (list: Node?)
      requires Wired(pending, [])
      modifies `first
      ensures Wired([], pending) && list == Head(pending)
    {
      assert pending + [] == [] + pending;
      list := first;
      first := null;
    }

    /** `take_next`, exit_sequentializer.rs:257-259. */
    method TakeNextOf(node: Node, ghost pending: seq<Node>, ghost chain: seq<Node>) returns (list: Node?)
      requires Wired(pending, chain) && chain != [] && node == chain[0] && Distinct(pending + chain)
      modifies node`next
      ensures Wired(pending, chain[1..]) && list == Head(chain[1..])
    {
      Elements(pending, chain);
      Elements(pending, chain[1..]);
      assert chain == [node] + chain[1..];
      assert forall i: nat :: i < |pending| ==> (pending + chain)[i] == pending[i];
      assert forall i: nat :: i < |chain| ==> (pending + chain)[|pending| + i] == chain[i];
      assert node !in pending && node !in chain[1..];
      assert chain[0] == node;
      list := node.next;
      node.next := null;
    }

    /** How many nodes are linked. */
    ghost function Load(): nat
      reads this
    {
      |d.chain| + |d.pending|
    }

    /** Registrations by other threads and by finalizers: some of `plan` from `i` on, in its order. */
    method Others(plan: seq<Node>, i: nat) returns (j: nat)
      requires Valid() && Planned(plan, i)
      modifies this, objects
      ensures Valid() && i <= j && Planned(plan, j)
      ensures d.chain == old(d.chain) && d.stage == old(d.stage) && Load() <= old(Load()) + (j - i)
    {
      j := i;
      while j < |plan|
        invariant Valid() && i <= j && Planned(plan, j)
        invariant d.chain == old(d.chain) && d.stage == old(d.stage) && Load() <= old(Load()) + (j - i)
      {
        if * { break; }
        var ok := FinalizeAtExit(plan[j]);
        j := j + 1;
      }
    }

    /** The objects of `plan` from `i` on have not asked yet. */
    ghost predicate Planned(plan: seq<Node>, i: nat)
      reads this
    {
      && i <= |plan| && Distinct(plan)
      && forall k: nat {:trigger plan[k]} :: i <= k < |plan| ==> plan[k] in objects && plan[k] !in d.attempted
    }

    /** exit_sequentializer.rs:58-60. */
    method Begin() returns (list: Node?)
      requires Valid() && d.stage.Unstarted?
      modifies this
      ensures Valid() && d == Make(old(d), Start) && list == Head(d.chain)
      ensures d.attempted == old(d.attempted)
      ensures if list == null then d.stage.Finished? else d.stage.AtNode?
    {
      MakeBooked(d, Start);
      ghost var e := Make(d, Start);
      list := TakeFirst(d.pending);
      Book(e);
    }

    /** The finalizer of the current node, exit_sequentializer.rs:68; module ExitLife says what it does. */
    ghost method RunNode()
      requires Valid() && Can(d, Execute)
      modifies `d
      ensures Valid() && d == Make(old(d), Execute)
      ensures d.attempted == old(d.attempted) && d.chain == old(d.chain) && Load() == old(Load()) && d.stage.NodeDone?
    {
      MakeBooked(d, Execute);
      d := Make(d, Execute);
    }

    /** `take_next` on the current node, exit_sequentializer.rs:69. */
    method Next(node: Node) returns (list: Node?)
      requires Valid() && Can(d, TakeNext) && node == d.chain[0]
      modifies this, node
      ensures Valid() && d == Make(old(d), TakeNext) && list == Head(d.chain)
      ensures d.attempted == old(d.attempted) && Load() < old(Load())
      ensures if list == null then d.stage.Exhausted? else d.stage.AtNode?
    {
      ghost var e := Make(d, TakeNext);
      NextBooked(d, e);
      list := TakeNextOf(node, d.pending, d.chain);
      Book(e);
    }

    /** Looking at REGISTER again, exit_sequentializer.rs:70-74. */
    method RefillList() returns (list: Node?)
      requires Valid() && d.stage.Exhausted?
      modifies this
      ensures Valid() && d == Make(old(d), Refill) && list == Head(d.chain)
      ensures d.attempted == old(d.attempted) && Load() == old(Load())
      ensures if list == null then d.stage.Finished? else d.stage.AtNode?
    {
      ghost var e := Make(d, Refill);
      RefillBooked(d, e);
      if first == null { registrationOpened := false; }
      list := TakeFirst(d.pending);
      Book(e);
    }

    /** The body of the drain loop up to `or_else`, exit_sequentializer.rs:68-69. */
    method FinishNode(plan: seq<Node>, i: nat, node: Node) returns (j: nat, list: Node?)
      requires Valid() && Planned(plan, i) && d.stage.AtNode? && node == Head(d.chain)
      modifies this, objects
      ensures Valid() && Planned(plan, j) && list == Head(d.chain)
      ensures i <= j && Load() < old(Load()) + (j - i)
      ensures if list == null then d.stage.Exhausted? else d.stage.AtNode?
    {
      j := Others(plan, i);
      RunNode();
      j := Others(plan, j);
      list := Next(node);
    }

    /** The closure of `or_else`, exit_sequentializer.rs:69-75. */
    method LookAgain(plan: seq<Node>, i: nat) returns (j: nat, list: Node?)
      requires Valid() && Planned(plan, i) && d.stage.Exhausted?
      modifies this, objects
      ensures Valid() && Planned(plan, j) && list == Head(d.chain)
      ensures i <= j && Load() <= old(Load()) + (j - i)
      ensures if list == null then d.stage.Finished? else d.stage.AtNode?
    {
      j := Others(plan, i);
      list := RefillList();
    }

    /** `execute_at_exit`, exit_sequentializer.rs:57-77, while the objects of `plan` register at any moments
        in between: it terminates, and if the list was not empty when it began, everything that was accepted
        has been executed exactly once and registration is closed. */
    method ExecuteAtExit(plan: seq<Node>)
      requires Valid() && d.stage.Unstarted? && Planned(plan, 0)
      modifies this, objects
      ensures Valid() && d.stage.Finished?
      ensures |d.cuts| > 1 && (registrationOpened <==> d.cuts[1] == 0)
      ensures !registrationOpened ==> multiset(d.executed) == multiset(d.accepted) && Distinct(d.executed)
      ensures !registrationOpened ==> d.executed == Batches(d.accepted, d.cuts)
      ensures registrationOpened ==> d.executed == []
    {
      var i := Others(plan, 0);
      var list := Begin();
      while list != null
        invariant Valid() && Planned(plan, i) && list == Head(d.chain)
        invariant if list == null then d.stage.Finished? else d.stage.AtNode?
        decreases |plan| - i, Load()
      {
        i, list := FinishNode(plan, i, list);
        if list == null { i, list := LookAgain(plan, i); }
      }
      Drained();
    }

    lemma Drained()
      requires Valid() && d.stage.Finished?
      ensures |d.cuts| > 1 && (registrationOpened <==> d.cuts[1] == 0)
      ensures !registrationOpened ==> multiset(d.executed) == multiset(d.accepted) && Distinct(d.executed)
      ensures !registrationOpened ==> d.executed == Batches(d.accepted, d.cuts)
      ensures registrationOpened ==> d.executed == []
    {
      FinishedGood(d);
    }
  }
}
