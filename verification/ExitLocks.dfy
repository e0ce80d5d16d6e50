/** Every object with its own locker, and the drain that finalizes them through it.

    The objects are used by any number of clients each, in every interleaving; client 0 of an object is the
    thread that runs the drain.  At the turn of an object it calls `lock` as `finalize_callback` does, runs
    the finalizer if it is given the lock, and the drain goes on when the call is over
    (src/lazy_sequentializer.rs:542-569, src/exit_sequentializer.rs:56-102 and 250-266).  Finalizers are
    taken not to panic.
 */
module ExitLocks {
  import opened Phases
  import opened FutexProtocol
  import opened Lockers
  import opened Errands
  import opened LazyPolicies
  import opened LazyInit
  import opened LazySequentializer
  import opened LazyConcurrent
  import D = ExitDrain
  import L = ExitLife

  /** Which client asked for the registration of an object, and what it was told: its section is not over. */
  datatype Asked = Asked(c: nat, reg: Reply)

  /** The call of `finalize_callback`: none, on its way, with the finalizer run, or answered without a guard. */
  datatype Turn = NoTurn | Called | Ran | Declined(p: Phase)

  /** `missed` are the objects that were not finalized at their turn, with the phase the drain was told. */
  datatype Exit = Exit(cells: seq<Lazy>, drain: D.Drain<nat>, asked: seq<Option<Asked>>, turn: Turn,
                       missed: map<nat, Phase>)

  datatype Act =
    | Use(x: nat, d: Deed, y: Lazy)   // a client of `x` moves, to `y`
    | Ask(x: nat, c: nat)             // it registers `x` in the middle of its section
    | Finalize(m: Move, k: Locker)     // the drain calls `finalize_callback` of its current object
    | Serve(d: Deed, y: Lazy)         // the call goes on
    | Return                          // and is over
    | Walk(step: D.Move<nat>)         // the drain starts, takes the next object, or refills

  predicate Sized(e: Exit, tols: seq<Tolerance>) {
    && |e.cells| == |e.asked| == |tols|
    && (forall x :: x in e.drain.chain ==> x < |tols|)
    && (forall x: nat {:trigger e.cells[x]} :: x < |tols| ==> Clients(e.cells[x].lock) > 0)
  }

  predicate AtTurn(e: Exit) { e.drain.stage.AtNode? && e.drain.chain != [] }

  /** The section of a client that is not the drain: the first one has registered the object. */
  predicate Accesses(h: History, asked: Option<Asked>, d: Deed) {
    d.sec.Access? && (h.phase == EMPTY ==> asked == Some(Asked(d.c, d.sec.reg)))
  }

  ghost predicate UseReady(tol: Tolerance, cell: Lazy, asked: Option<Asked>, d: Deed, y: Lazy) {
    && d.c != 0 && LazyStep(Registering, tol, cell, d, y)
    && (LetsGo(cell.lock, d.c, y.lock) ==> Accesses(cell.h, asked, d))
  }

  predicate AskReady(cell: Lazy, asked: Option<Asked>, c: nat) {
    0 < c < Clients(cell.lock) && At(cell.lock, c).Owns? && cell.h.phase == EMPTY && asked.None?
  }

  ghost predicate CallReady(cell: Lazy, m: Move, k: Locker) {
    && 0 < Clients(cell.lock) && ErrandAt(cell.lock, 0).Rest? && Goes(cell.lock, 0, m, k)
    && 0 < Clients(k) && ErrandAt(k, 0) == Calling(FinalHow(), FinalHow(), false)
  }

  /** The guard of `finalize_callback` is dropped, not turned into another. */
  ghost predicate ServeReady(tol: Tolerance, cell: Lazy, d: Deed, y: Lazy) {
    && d.c == 0 < Clients(cell.lock) && !ErrandAt(cell.lock, 0).Rest? && !Downgrades(d.m)
    && LazyStep(Registering, tol, cell, d, y)
    && (LetsGo(cell.lock, 0, y.lock) ==> d.sec == Finalization(Returns))
  }

  /** How the call stands after a move from `cell` to `y` of the client that serves it. */
  function Served(turn: Turn, cell: Lazy, y: Lazy): Turn
    requires 0 < Clients(cell.lock)
  {
    if LetsGo(cell.lock, 0, y.lock) then Ran
    else if At(cell.lock, 0).Told? then Declined(At(cell.lock, 0).p)
    else turn
  }

  ghost predicate Ready(e: Exit, tols: seq<Tolerance>, a: Act) {
    Sized(e, tols) &&
    match a
    case Use(x, d, y) => x < |tols| && UseReady(tols[x], e.cells[x], e.asked[x], d, y)
    case Ask(x, c) => x < |tols| && AskReady(e.cells[x], e.asked[x], c)
    case Finalize(m, k) => AtTurn(e) && e.turn.NoTurn? && e.drain.chain[0] in e.drain.chain
      && CallReady(e.cells[e.drain.chain[0]], m, k)
    case Serve(d, y) => AtTurn(e) && !e.turn.NoTurn? && e.drain.chain[0] in e.drain.chain
      && ServeReady(tols[e.drain.chain[0]], e.cells[e.drain.chain[0]], d, y)
    case Return => AtTurn(e) && !e.turn.NoTurn? && e.drain.chain[0] in e.drain.chain
      && ErrandAt(e.cells[e.drain.chain[0]].lock, 0).Rest?
    case Walk(m) => (m.Start? || m.TakeNext? || m.Refill?) && D.Can(e.drain, m)
  }

  /** An object that asks has not asked before, see `NeverLinkedTwice`. */
  ghost function Perform(e: Exit, tols: seq<Tolerance>, a: Act): Exit
    requires Ready(e, tols, a) && (a.Ask? ==> a.x !in e.drain.attempted)
  {
    match a
    case Use(x, d, y) =>
      e.(cells := e.cells[x := y],
         asked := if LetsGo(e.cells[x].lock, d.c, y.lock) then e.asked[x := None] else e.asked)
    case Ask(x, c) =>
      e.(drain := D.Make(e.drain, D.Register(x)),
         asked := e.asked[x := Some(Asked(c, if e.drain.accepting then Accepted else RefusedReg))])
    case Finalize(m, k) =>
      e.(cells := e.cells[e.drain.chain[0] := e.cells[e.drain.chain[0]].(lock := k)], turn := Called)
    case Serve(d, y) =>
      e.(cells := e.cells[e.drain.chain[0] := y],
         turn := Served(e.turn, e.cells[e.drain.chain[0]], y))
    case Return =>
      e.(drain := D.Make(e.drain, D.Execute), turn := NoTurn,
         missed := if e.turn.Declined? then e.missed[e.drain.chain[0] := e.turn.p] else e.missed)
    case Walk(m) => e.(drain := D.Make(e.drain, m))
  }

  // ---------- the invariant ----------

  /** Where the call of the drain is, on the client it uses. */
  ghost predicate CallOk(turn: Turn, errand: Errand) {
    match turn
    case NoTurn => errand.Rest?
    case Called => errand == Calling(FinalHow(), FinalHow(), false) || errand == Holding(FinalHow())
      || errand == Answered(FinalHow(), FinalHow())
    case Ran => errand.Ending? || errand.Rest?
    case Declined(p) => errand.Rest? && !p.initialized
  }

  /** Who asked for registration still owns the object, in the empty phase. */
  predicate AskedOk(cell: Lazy, asked: Option<Asked>, accepted: bool) {
    asked.Some? ==>
      && cell.h.phase == EMPTY && 0 < asked.value.c < Clients(cell.lock) && At(cell.lock, asked.value.c).Owns?
      && !asked.value.reg.PanickedReg? && (asked.value.reg.Accepted? <==> accepted)
  }

  /** An object and its locker. */
  ghost predicate CellOk(tol: Tolerance, cell: Lazy, asked: Option<Asked>, turn: Turn, accepted: bool) {
    && Live(cell.lock) && InStep(cell) && HistoryOk(tol, cell.h)
    && Clients(cell.lock) > 0 && CallOk(turn, ErrandAt(cell.lock, 0))
    && AskedOk(cell, asked, accepted)
  }

  /** The record of an object and where it is in the exit manager. */
  predicate Tied(h: History, asked: bool, turn: Turn, attempted: bool, accepted: bool, executed: bool, missed: bool) {
    && (attempted <==> h.regCalls == 1 || asked)
    && (h.links == 1 <==> accepted && !asked)
    && (executed ==> accepted) && (missed ==> executed)
    && (!turn.NoTurn? ==> accepted && !executed)
    && h.finCalls == Bit((executed && !missed) || turn.Ran?)
  }

  /** The call, if it is of `x`. */
  function TurnOf(e: Exit, x: nat): Turn {
    if e.drain.chain != [] && e.drain.chain[0] == x then e.turn else NoTurn
  }

  ghost predicate ObjectOk(e: Exit, tols: seq<Tolerance>, x: nat)
    requires |e.cells| == |e.asked| == |tols| && x < |tols|
  {
    && CellOk(tols[x], e.cells[x], e.asked[x], TurnOf(e, x), x in e.drain.accepted)
    && Tied(e.cells[x].h, e.asked[x].Some?, TurnOf(e, x), x in e.drain.attempted, x in e.drain.accepted,
            x in e.drain.executed, x in e.missed)
  }

  ghost predicate ExitOk(e: Exit, tols: seq<Tolerance>) {
    && D.Good(e.drain) && |e.cells| == |e.asked| == |tols|
    && (forall x :: x in e.drain.attempted ==> x < |tols|)
    && (forall x :: x in e.missed ==> !e.missed[x].initialized)
    && (!e.turn.NoTurn? ==> AtTurn(e))
    && (forall x: nat {:trigger e.cells[x]} :: x < |tols| ==> ObjectOk(e, tols, x))
  }

  lemma Chained(e: Exit, tols: seq<Tolerance>)
    requires ExitOk(e, tols)
    ensures Sized(e, tols)
  {
    L.LinkedAreAccepted(e.drain);
    forall x: nat | x < |tols|
      ensures Clients(e.cells[x].lock) > 0
    {
      assert ObjectOk(e, tols, x);
    }
  }

  // ---------- what a move does to an object ----------

  lemma NobodyMinds(cell: Lazy, asked: Option<Asked>, accepted: bool, c: nat, y: Lazy)
    requires AskedOk(cell, asked, accepted) && c < Clients(cell.lock) && OthersStay(cell.lock, y.lock, c)
    requires y.h == cell.h && (asked.Some? && asked.value.c == c ==> At(y.lock, c).Owns?)
    ensures AskedOk(y, asked, accepted)
  {
    if asked.Some? && asked.value.c != c {
      assert At(y.lock, asked.value.c) == At(cell.lock, asked.value.c);
    }
  }

  /** What an access does to the record: the first one says what the registration answered. */
  lemma AccessCounts(tol: Tolerance, h: History, sec: Section)
    requires HistoryOk(tol, h) && sec.Access?
    ensures var k := Visit(tol, h, sec);
      && HistoryOk(tol, k) && k.finCalls == h.finCalls && k.phase != EMPTY && k.regCalls == 1
      && k.links == if h.phase == EMPTY then Bit(sec.reg.Accepted?) else h.links
  {
    VisitOk(tol, h, sec);
    ShallInitMeans(tol, h.phase);
  }

  /** A client other than the drain's moves. */
  lemma UseKeeps(tol: Tolerance, cell: Lazy, asked: Option<Asked>, turn: Turn, accepted: bool, d: Deed, y: Lazy)
    requires CellOk(tol, cell, asked, turn, accepted) && UseReady(tol, cell, asked, d, y)
    ensures d.c < Clients(cell.lock)
    ensures CellOk(tol, y, if LetsGo(cell.lock, d.c, y.lock) then None else asked, turn, accepted)
  {
    StayInStep(Registering, tol, cell, d, y);
    StepRecord(Registering, tol, cell, d, y);
    GoesTurns(cell.lock, d.c, d.m, y.lock);
    OthersErrands(cell.lock, d.c, d.m, y.lock, 0);
    if !LetsGo(cell.lock, d.c, y.lock) { NobodyMinds(cell, asked, accepted, d.c, y); }
  }

  lemma UseTied(tol: Tolerance, cell: Lazy, asked: Option<Asked>, turn: Turn, attempted: bool, accepted: bool,
                executed: bool, missed: bool, d: Deed, y: Lazy)
    requires CellOk(tol, cell, asked, turn, accepted) && UseReady(tol, cell, asked, d, y)
    requires Tied(cell.h, asked.Some?, turn, attempted, accepted, executed, missed)
    ensures Tied(y.h, asked.Some? && !LetsGo(cell.lock, d.c, y.lock), turn, attempted, accepted, executed, missed)
  {
    if LetsGo(cell.lock, d.c, y.lock) { AccessCounts(tol, cell.h, d.sec); }
  }

  /** The drain's client begins its call. */
  lemma CallKeeps(tol: Tolerance, cell: Lazy, asked: Option<Asked>, accepted: bool, m: Move, k: Locker)
    requires CellOk(tol, cell, asked, NoTurn, accepted) && CallReady(cell, m, k)
    ensures CellOk(tol, cell.(lock := k), asked, Called, accepted)
  {
    var d, y := Deed(0, m, Finalization(Returns)), cell.(lock := k);
    HoldingOwns(cell.lock, 0);
    StayInStep(Registering, tol, cell, d, y);
    GoesTurns(cell.lock, 0, m, k);
    NobodyMinds(cell, asked, accepted, 0, y);
  }

  lemma FinalHowAsks(p: Phase)
    ensures NeverReads(FinalHow()) && (FinalHow()(p).Write? <==> p.initialized)
  {
    InitializedFlag(p);
  }

  /** It lets go of a guard only when it has been called for, and of an initialized object. */
  lemma ServedOwner(tol: Tolerance, cell: Lazy, asked: Option<Asked>, turn: Turn, accepted: bool)
    requires CellOk(tol, cell, asked, turn, accepted) && At(cell.lock, 0).Owns?
    ensures turn == Called && At(cell.lock, 0).how == FinalHow() && cell.h.phase.initialized
  {
    HoldingOwns(cell.lock, 0);
    LiveAgrees(cell.lock, 0);
    FinalHowAsks(PhaseOf(cell.lock));
    assert Synced(At(cell.lock, 0), PhaseOf(cell.lock), cell.h);
  }

  /** What the drain is told when its call is declined is a phase that is not initialized. */
  lemma DeclinedFor(tol: Tolerance, cell: Lazy, asked: Option<Asked>, turn: Turn, accepted: bool)
    requires CellOk(tol, cell, asked, turn, accepted) && turn != NoTurn && At(cell.lock, 0).Told?
    ensures turn == Called && !At(cell.lock, 0).p.initialized
  {
    HoldingOwns(cell.lock, 0);
    LiveAgrees(cell.lock, 0);
    FinalHowAsks(At(cell.lock, 0).p);
  }

  lemma ServeCalls(tol: Tolerance, cell: Lazy, asked: Option<Asked>, turn: Turn, accepted: bool, d: Deed, y: Lazy)
    requires CellOk(tol, cell, asked, turn, accepted) && ServeReady(tol, cell, d, y) && turn != NoTurn
    ensures 0 < Clients(y.lock)
    ensures CallOk(Served(turn, cell, y), ErrandAt(y.lock, 0))
  {
    FinalHowAsks(EMPTY);
    GoesFollows(cell.lock, 0, d.m, y.lock);
    GoesTurns(cell.lock, 0, d.m, y.lock);
    HoldingOwns(cell.lock, 0);
    HoldingOwns(y.lock, 0);
    if At(cell.lock, 0).Told? { DeclinedFor(tol, cell, asked, turn, accepted); }
  }

  lemma ServeKeeps(tol: Tolerance, cell: Lazy, asked: Option<Asked>, turn: Turn, accepted: bool, d: Deed, y: Lazy)
    requires CellOk(tol, cell, asked, turn, accepted) && ServeReady(tol, cell, d, y) && turn != NoTurn
    ensures CellOk(tol, y, asked, Served(turn, cell, y), accepted)
  {
    StayInStep(Registering, tol, cell, d, y);
    StepRecord(Registering, tol, cell, d, y);
    GoesTurns(cell.lock, 0, d.m, y.lock);
    ServeCalls(tol, cell, asked, turn, accepted, d, y);
    if LetsGo(cell.lock, 0, y.lock) { ServedOwner(tol, cell, asked, turn, accepted); }
    else { NobodyMinds(cell, asked, accepted, 0, y); }
  }

  lemma ServeTied(tol: Tolerance, cell: Lazy, asked: Option<Asked>, turn: Turn, attempted: bool, accepted: bool,
                  executed: bool, missed: bool, d: Deed, y: Lazy)
    requires CellOk(tol, cell, asked, turn, accepted) && ServeReady(tol, cell, d, y) && turn != NoTurn
    requires Tied(cell.h, asked.Some?, turn, attempted, accepted, executed, missed)
    ensures Tied(y.h, asked.Some?, Served(turn, cell, y), attempted, accepted, executed, missed)
  {
    HoldingOwns(cell.lock, 0);
    if LetsGo(cell.lock, 0, y.lock) { ServedOwner(tol, cell, asked, turn, accepted); }
  }

  // ---------- every act keeps the invariant ----------

  /** Nothing has changed about the object `z`. */
  ghost predicate SameObject(e: Exit, f: Exit, z: nat) {
    && z < |e.cells| == |f.cells| && z < |e.asked| == |f.asked|
    && f.cells[z] == e.cells[z] && f.asked[z] == e.asked[z] && TurnOf(f, z) == TurnOf(e, z)
    && (z in f.drain.attempted <==> z in e.drain.attempted) && (z in f.drain.accepted <==> z in e.drain.accepted)
    && (z in f.drain.executed <==> z in e.drain.executed) && (z in f.missed <==> z in e.missed)
  }

  ghost predicate SameOthers(e: Exit, f: Exit, x: nat) {
    forall z: nat {:trigger SameObject(e, f, z)} :: z < |e.cells| && z != x ==> SameObject(e, f, z)
  }

  lemma OneObject(e: Exit, tols: seq<Tolerance>, x: nat, f: Exit)
    requires ExitOk(e, tols) && x < |tols| == |f.cells| == |f.asked| && D.Good(f.drain) && ObjectOk(f, tols, x)
    requires forall z :: z in f.drain.attempted ==> z < |tols|
    requires forall z :: z in f.missed ==> !f.missed[z].initialized
    requires !f.turn.NoTurn? ==> AtTurn(f)
    requires SameOthers(e, f, x)
    ensures ExitOk(f, tols)
  {
    forall z: nat | z < |tols|
      ensures ObjectOk(f, tols, z)
    {
      if z != x {
        assert ObjectOk(e, tols, z) by { assert e.cells[z] == e.cells[z]; }
        assert SameObject(e, f, z);
      }
    }
  }

  /** The same when the drain stands still. */
  lemma OneCell(e: Exit, tols: seq<Tolerance>, x: nat, f: Exit)
    requires ExitOk(e, tols) && x < |tols| == |f.cells| == |f.asked| && ObjectOk(f, tols, x)
    requires f.drain == e.drain && f.missed == e.missed && (f.turn.NoTurn? || AtTurn(f))
    requires SameOthers(e, f, x)
    ensures ExitOk(f, tols)
  {
    OneObject(e, tols, x, f);
  }

  lemma UseObject(e: Exit, tols: seq<Tolerance>, x: nat, d: Deed, y: Lazy)
    requires ExitOk(e, tols) && Ready(e, tols, Use(x, d, y))
    ensures ObjectOk(Perform(e, tols, Use(x, d, y)), tols, x)
  {
    assert ObjectOk(e, tols, x) by { assert e.cells[x] == e.cells[x]; }
    UseKeeps(tols[x], e.cells[x], e.asked[x], TurnOf(e, x), x in e.drain.accepted, d, y);
    UseTied(tols[x], e.cells[x], e.asked[x], TurnOf(e, x), x in e.drain.attempted, x in e.drain.accepted,
      x in e.drain.executed, x in e.missed, d, y);
  }

  lemma UseOthers(e: Exit, tols: seq<Tolerance>, x: nat, d: Deed, y: Lazy)
    requires Ready(e, tols, Use(x, d, y))
    ensures SameOthers(e, Perform(e, tols, Use(x, d, y)), x)
  {
  }

  lemma UseOk(e: Exit, tols: seq<Tolerance>, x: nat, d: Deed, y: Lazy)
    requires ExitOk(e, tols) && Ready(e, tols, Use(x, d, y))
    ensures ExitOk(Perform(e, tols, Use(x, d, y)), tols)
  {
    UseObject(e, tols, x, d, y);
    UseOthers(e, tols, x, d, y);
    OneCell(e, tols, x, Perform(e, tols, Use(x, d, y)));
  }

  /** An object in the empty phase that nobody has asked for has not been registered. */
  lemma FirstAsk(e: Exit, tols: seq<Tolerance>, x: nat, c: nat)
    requires ExitOk(e, tols) && Ready(e, tols, Ask(x, c))
    ensures x !in e.drain.attempted && x !in e.drain.accepted && x !in e.drain.pending && x !in e.drain.chain
  {
    assert ObjectOk(e, tols, x) by { assert e.cells[x] == e.cells[x]; }
    L.LinkedAreAccepted(e.drain);
  }

  lemma AskObject(e: Exit, tols: seq<Tolerance>, x: nat, c: nat)
    requires ExitOk(e, tols) && Ready(e, tols, Ask(x, c)) && x !in e.drain.attempted
    ensures ObjectOk(Perform(e, tols, Ask(x, c)), tols, x)
  {
    FirstAsk(e, tols, x, c);
    assert ObjectOk(e, tols, x) by { assert e.cells[x] == e.cells[x]; }
  }

  lemma AskOthers(e: Exit, tols: seq<Tolerance>, x: nat, c: nat)
    requires Ready(e, tols, Ask(x, c)) && x !in e.drain.attempted
    ensures SameOthers(e, Perform(e, tols, Ask(x, c)), x)
  {
  }

  lemma AskOk(e: Exit, tols: seq<Tolerance>, x: nat, c: nat)
    requires ExitOk(e, tols) && Ready(e, tols, Ask(x, c)) && x !in e.drain.attempted
    ensures ExitOk(Perform(e, tols, Ask(x, c)), tols)
  {
    D.MakeGood(e.drain, D.Register(x));
    AskObject(e, tols, x, c);
    AskOthers(e, tols, x, c);
    OneObject(e, tols, x, Perform(e, tols, Ask(x, c)));
  }

  lemma InChain(e: Exit, tols: seq<Tolerance>)
    requires ExitOk(e, tols) && AtTurn(e)
    ensures var x := e.drain.chain[0];
      x < |tols| && x in e.drain.accepted && x !in e.drain.executed && ObjectOk(e, tols, x)
  {
    var x := e.drain.chain[0];
    L.Counted(e.drain, x);
    Chained(e, tols);
    assert x in e.drain.chain;
    assert e.cells[x] == e.cells[x];
  }

  lemma FinalizeOk(e: Exit, tols: seq<Tolerance>, m: Move, k: Locker)
    requires ExitOk(e, tols) && Ready(e, tols, Finalize(m, k))
    ensures ExitOk(Perform(e, tols, Finalize(m, k)), tols)
  {
    var x := e.drain.chain[0];
    InChain(e, tols);
    CallKeeps(tols[x], e.cells[x], e.asked[x], x in e.drain.accepted, m, k);
    OneCell(e, tols, x, Perform(e, tols, Finalize(m, k)));
  }

  lemma ServeOk(e: Exit, tols: seq<Tolerance>, d: Deed, y: Lazy)
    requires ExitOk(e, tols) && Ready(e, tols, Serve(d, y))
    ensures ExitOk(Perform(e, tols, Serve(d, y)), tols)
  {
    var x := e.drain.chain[0];
    InChain(e, tols);
    ServeKeeps(tols[x], e.cells[x], e.asked[x], e.turn, x in e.drain.accepted, d, y);
    ServeTied(tols[x], e.cells[x], e.asked[x], e.turn, x in e.drain.attempted, x in e.drain.accepted,
      x in e.drain.executed, x in e.missed, d, y);
    OneCell(e, tols, x, Perform(e, tols, Serve(d, y)));
  }

  lemma ReturnObject(e: Exit, tols: seq<Tolerance>)
    requires ExitOk(e, tols) && Ready(e, tols, Return)
    ensures var x := e.drain.chain[0]; x < |tols| && ObjectOk(Perform(e, tols, Return), tols, x)
  {
    InChain(e, tols);
  }

  lemma ReturnOthers(e: Exit, tols: seq<Tolerance>)
    requires Ready(e, tols, Return)
    ensures SameOthers(e, Perform(e, tols, Return), e.drain.chain[0])
  {
  }

  lemma ReturnOk(e: Exit, tols: seq<Tolerance>)
    requires ExitOk(e, tols) && Ready(e, tols, Return)
    ensures ExitOk(Perform(e, tols, Return), tols)
  {
    var x := e.drain.chain[0];
    InChain(e, tols);
    D.MakeGood(e.drain, D.Execute);
    ReturnObject(e, tols);
    ReturnOthers(e, tols);
    OneObject(e, tols, x, Perform(e, tols, Return));
  }

  lemma WalkSame(e: Exit, tols: seq<Tolerance>, m: D.Move<nat>, z: nat)
    requires ExitOk(e, tols) && Ready(e, tols, Walk(m)) && z < |tols|
    ensures SameObject(e, Perform(e, tols, Walk(m)), z)
  {
  }

  lemma SameOk(e: Exit, f: Exit, tols: seq<Tolerance>, z: nat)
    requires |e.cells| == |e.asked| == |tols| == |f.cells| == |f.asked| && z < |tols|
    requires ObjectOk(e, tols, z) && SameObject(e, f, z)
    ensures ObjectOk(f, tols, z)
  {
  }

  lemma WalkOk(e: Exit, tols: seq<Tolerance>, m: D.Move<nat>)
    requires ExitOk(e, tols) && Ready(e, tols, Walk(m))
    ensures ExitOk(Perform(e, tols, Walk(m)), tols)
  {
    var f := Perform(e, tols, Walk(m));
    D.MakeGood(e.drain, m);
    forall z: nat | z < |tols|
      ensures ObjectOk(f, tols, z)
    {
      assert e.cells[z] == e.cells[z];
      WalkSame(e, tols, m, z);
      SameOk(e, f, tols, z);
    }
  }

  lemma PerformOk(e: Exit, tols: seq<Tolerance>, a: Act)
    requires ExitOk(e, tols) && Ready(e, tols, a)
    ensures a.Ask? ==> a.x !in e.drain.attempted
    ensures ExitOk(Perform(e, tols, a), tols)
  {
    match a
    case Use(x, d, y) => UseOk(e, tols, x, d, y);
    case Ask(x, c) => FirstAsk(e, tols, x, c); AskOk(e, tols, x, c);
    case Finalize(m, k) => FinalizeOk(e, tols, m, k);
    case Serve(d, y) => ServeOk(e, tols, d, y);
    case Return => ReturnOk(e, tols);
    case Walk(m) => WalkOk(e, tols, m);
  }

  // ---------- runs ----------

  /** Nothing has happened yet; every object has a new locker of either kind. */
  ghost predicate Fresh(e: Exit, tols: seq<Tolerance>) {
    && |e.cells| == |tols| && e.drain == D.Initial<nat>() && e.asked == seq(|tols|, _ => None)
    && e.turn == NoTurn && e.missed == map[]
    && forall x: nat {:trigger e.cells[x]} :: x < |tols| ==>
         e.cells[x].h == UNUSED && Clients(e.cells[x].lock) > 0 && New(e.cells[x].lock, Clients(e.cells[x].lock))
  }

  ghost predicate Exits(tols: seq<Tolerance>, acts: seq<Act>, e: Exit)
    decreases |acts|
  {
    if acts == [] then Fresh(e, tols)
    else
      var last := acts[|acts| - 1];
      exists f: Exit :: Exits(tols, acts[..|acts| - 1], f) && Ready(f, tols, last)
        && (last.Ask? ==> last.x !in f.drain.attempted) && Perform(f, tols, last) == e
  }

  lemma RestIsNew(l: Locker, n: nat)
    requires New(l, n) && n > 0
    ensures Clients(l) == n && ErrandAt(l, 0).Rest?
  {
  }

  lemma FreshOk(e: Exit, tols: seq<Tolerance>)
    requires Fresh(e, tols)
    ensures ExitOk(e, tols)
  {
    D.InitialGood<nat>();
    forall x: nat | x < |tols|
      ensures ObjectOk(e, tols, x)
    {
      NewInStep(e.cells[x], Clients(e.cells[x].lock));
      RestIsNew(e.cells[x].lock, Clients(e.cells[x].lock));
      assert e.asked[x] == None;
    }
  }

  lemma {:induction false} ExitsOk(tols: seq<Tolerance>, acts: seq<Act>, e: Exit)
    requires Exits(tols, acts, e)
    ensures ExitOk(e, tols)
    decreases |acts|
  {
    if acts == [] {
      FreshOk(e, tols);
    } else {
      var last := acts[|acts| - 1];
      var f: Exit :| Exits(tols, acts[..|acts| - 1], f) && Ready(f, tols, last)
        && (last.Ask? ==> last.x !in f.drain.attempted) && Perform(f, tols, last) == e;
      ExitsOk(tols, acts[..|acts| - 1], f);
      PerformOk(f, tols, last);
    }
  }

  // ---------- theorems ----------

  /** Finalizer safety, with a locker for every object: in every interleaving of the users of all objects and
      the drain, the finalizer of an object runs at most once, only after its initialization returned, and
      only if its registration was accepted. */
  lemma FinalizedOnceUnderLock(tols: seq<Tolerance>, acts: seq<Act>, e: Exit, x: nat)
    requires Exits(tols, acts, e) && x < |tols|
    ensures |e.cells| == |tols|
    ensures var h := e.cells[x].h;
      h.finCalls <= 1 && h.initReturns <= 1
      && (h.finCalls == 1 ==> h.phase.initialized && h.initReturns == 1 && x in e.drain.accepted)
  {
    ExitsOk(tols, acts, e);
    assert ObjectOk(e, tols, x) by { assert e.cells[x] == e.cells[x]; }
  }

  /** While the finalizer can run, nobody else holds a lock of the object or reads it, the object is
      initialized and has not been finalized; and it is the object whose turn it is. */
  lemma FinalizerIsAlone(tols: seq<Tolerance>, acts: seq<Act>, e: Exit, x: nat)
    requires Exits(tols, acts, e) && x < |tols| == |e.cells|
    requires 0 < Clients(e.cells[x].lock) && At(e.cells[x].lock, 0).Owns?
    ensures AtTurn(e) && e.drain.chain[0] == x && e.turn == Called
    ensures At(e.cells[x].lock, 0).found.initialized && e.cells[x].h.initReturns == 1 && e.cells[x].h.finCalls == 0
    ensures forall i: nat :: 0 < i < Clients(e.cells[x].lock) ==>
      !Sole(At(e.cells[x].lock, i)) && !Inside(At(e.cells[x].lock, i))
  {
    ExitsOk(tols, acts, e);
    assert ObjectOk(e, tols, x) by { assert e.cells[x] == e.cells[x]; }
    ServedOwner(tols[x], e.cells[x], e.asked[x], TurnOf(e, x), x in e.drain.accepted);
    LiveAgrees(e.cells[x].lock, 0);
    assert Synced(At(e.cells[x].lock, 0), PhaseOf(e.cells[x].lock), e.cells[x].h);
    NobodyElse(e.cells[x].lock, 0);
  }

  /** An object that asks for registration has not asked before and is in no list: the assertion against
      double registration holds. */
  lemma NeverLinkedTwice(tols: seq<Tolerance>, acts: seq<Act>, e: Exit, x: nat, c: nat)
    requires Exits(tols, acts, e) && Ready(e, tols, Ask(x, c))
    ensures x !in e.drain.attempted && x !in e.drain.pending && x !in e.drain.chain
  {
    ExitsOk(tols, acts, e);
    FirstAsk(e, tols, x, c);
  }

  /** After a drain that closed registration every object whose registration was accepted has had its call, in
      which its finalizer ran exactly once, or which was told a phase that was not INITIALIZED; no other is
      finalized. */
  lemma EveryoneWasCalled(tols: seq<Tolerance>, acts: seq<Act>, e: Exit, x: nat)
    requires Exits(tols, acts, e) && e.drain.stage.Finished? && !e.drain.accepting && x < |tols|
    ensures |e.cells| == |tols| && e.turn == NoTurn
    ensures x in e.drain.accepted ==> x in e.drain.executed && (e.cells[x].h.finCalls == 1 <==> x !in e.missed)
    ensures x in e.missed ==> !e.missed[x].initialized
    ensures x !in e.drain.accepted ==> e.cells[x].h.finCalls == 0
  {
    ExitsOk(tols, acts, e);
    D.FinishedGood(e.drain);
    assert x in multiset(e.drain.executed) <==> x in multiset(e.drain.accepted);
    assert ObjectOk(e, tols, x) by { assert e.cells[x] == e.cells[x]; }
  }
}
