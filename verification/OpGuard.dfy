/** The volume's one-operation-at-a-time guard: re-entrant for its owner, loud for every other thread. */
module OpGuard {
  import opened Foundations

  type Thread = nat

  datatype Guard = Guard(owner: Option<Thread>, depth: nat)

  predicate Admits(g: Guard, t: Thread) { g.owner.None? || g.owner.value == t }

  function Entered(g: Guard, t: Thread): Guard { if Admits(g, t) then Guard(Some(t), g.depth + 1) else g }

  function Exited(g: Guard): Guard { if g.depth <= 1 then Guard(None, 0) else g.(depth := g.depth - 1) }

  class SingleOpGuard {
    var owner: Option<Thread>
    var depth: nat
    var identity: nat

    constructor ()
      ensures State() == Guard(None, 0) && identity == 0
    {
      owner, depth, identity := None, 0, 0;
    }

    function State(): Guard
      reads this
    {
      Guard(owner, depth)
    }

    method Enter(t: Thread) returns (admitted: bool)
      modifies this`owner, this`depth
      ensures admitted == Admits(old(State()), t) && State() == Entered(old(State()), t)
    {
      if owner.Some? && owner.value != t {
        return false;
      }
      owner, depth := Some(t), depth + 1;
      return true;
    }

    method Exit()
      modifies this`owner, this`depth
      ensures State() == Exited(old(State()))
    {
      var next := depth - 1;
      if next <= 0 {
        depth, owner := 0, None;
      } else {
        depth := next;
      }
    }

    /** Recovery mints a new identity first and enters the guard afterwards. */
    method BeginReacquire(t: Thread) returns (admitted: bool)
      modifies this
      ensures identity == old(identity) + 1
      ensures admitted == Admits(old(State()), t) && State() == Entered(old(State()), t)
    {
      identity := identity + 1;
      admitted := Enter(t);
    }
  }

  // ----- every interleaving of threads -----

  datatype Event = Enter(thread: Thread) | Exit(thread: Thread) | Reacquire(thread: Thread)

  /** The guard, the operations each thread has open, and the volume's identity. */
  datatype World = World(guard: Guard, open: map<Thread, nat>, identity: nat)

  function OpenOf(w: World, t: Thread): nat { if t in w.open then w.open[t] else 0 }

  /** A thread exits only an operation it has open. */
  function Step(w: World, e: Event): World {
    match e
    case Enter(t) =>
      if Admits(w.guard, t) then w.(guard := Entered(w.guard, t), open := w.open[t := OpenOf(w, t) + 1]) else w
    case Reacquire(t) =>
      var minted := w.(identity := w.identity + 1);
      if Admits(w.guard, t) then minted.(guard := Entered(w.guard, t), open := w.open[t := OpenOf(w, t) + 1]) else minted
    case Exit(t) =>
      if OpenOf(w, t) == 0 then w else w.(guard := Exited(w.guard), open := w.open[t := OpenOf(w, t) - 1])
  }

  function Run(w: World, es: seq<Event>): World
    decreases |es|
  {
    if es == [] then w else Run(Step(w, es[0]), es[1..])
  }

  const Start: World := World(Guard(None, 0), map[], 0)

  ghost predicate Inv(w: World) {
    && (w.guard.owner.Some? <==> w.guard.depth > 0)
    && forall t: Thread :: OpenOf(w, t) == if w.guard.owner == Some(t) then w.guard.depth else 0
  }

  lemma {:induction false} RunKeeps(w: World, es: seq<Event>)
    requires Inv(w)
    ensures Inv(Run(w, es))
    decreases |es|
  {
    if es != [] { RunKeeps(Step(w, es[0]), es[1..]); }
  }

  /** In every interleaving the owner is set exactly while operations are open, all of them are the owner's, and
      the depth is their number. */
  lemma GuardIsExact(es: seq<Event>, t: Thread)
    ensures var w := Run(Start, es);
      && (w.guard.owner.Some? <==> w.guard.depth > 0)
      && (OpenOf(w, t) > 0 <==> w.guard.owner == Some(t))
      && (OpenOf(w, t) > 0 ==> OpenOf(w, t) == w.guard.depth)
  {
    RunKeeps(Start, es);
  }

  /** In every interleaving a thread is let in exactly if no other thread has an operation open, however many it has itself. */
  lemma AdmittedExactly(es: seq<Event>, t: Thread)
    ensures var w := Run(Start, es);
      && (Admits(w.guard, t) <==> forall u: Thread :: u != t ==> OpenOf(w, u) == 0)
      && (Admits(w.guard, t) ==> OpenOf(Step(w, Enter(t)), t) == OpenOf(w, t) + 1)
  {
    RunKeeps(Start, es);
    var w := Run(Start, es);
    if !Admits(w.guard, t) { assert OpenOf(w, w.guard.owner.value) > 0; }
  }

  /** A rejected call leaves the volume as it was exactly when it is not a reacquire: a rejected reacquire has
      already replaced the identity under the running operation. */
  lemma RejectionChangesOnlyIdentity(es: seq<Event>, e: Event)
    requires (e.Enter? || e.Reacquire?) && !Admits(Run(Start, es).guard, e.thread)
    ensures Step(Run(Start, es), e) == Run(Start, es) <==> e.Enter?
    ensures Step(Run(Start, es), e).guard == Run(Start, es).guard && Step(Run(Start, es), e).open == Run(Start, es).open
  {
  }

  lemma IdentityMovesUnderOpenOperation()
    ensures var w := Run(Start, [Enter(0)]);
      OpenOf(w, 0) == 1 && !Admits(w.guard, 1) && Step(w, Reacquire(1)).identity != w.identity
  {
    assert [Enter(0)][1..] == [];
  }
}
