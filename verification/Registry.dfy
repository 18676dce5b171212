/** The in-process coordinator's record of one artifact: committed versions, grant states and fences. */
module Registry {
  import opened Foundations
  import opened Grants

  type Agent = nat
  type Content = Bytes

  /** `history[v - 1]` is the content committed as version `v`. An absent state is INVALID, an absent observation
      or read generation is none. `transients` holds the agents in the middle of a state change. */
  datatype Record = Record(
    history: seq<Content>,
    states: map<Agent, Mesi>,
    observed: map<Agent, nat>,
    transients: set<Agent>,
    generation: nat,
    readGenerations: map<Agent, nat>)

  datatype Trigger = ByFetch | ByWrite | ByCommit | ByInvalidate | ByUpdate | ByReclaim

  function StateOf(r: Record, a: Agent): Mesi { if a in r.states then r.states[a] else Invalid }

  predicate AtMostOneWriter(r: Record) {
    forall a, b :: a in r.states && b in r.states && Writes(r.states[a]) && Writes(r.states[b]) ==> a == b
  }

  /** One state write with its bookkeeping: the ownership generation moves when a write grant is revoked without
      a commit; an agent's own new claim captures it; a non-INVALID state stamps the observed version. */
  function SetState(r: Record, a: Agent, m: Mesi, t: Trigger): Record {
    var leaves := Writes(StateOf(r, a)) && !Writes(m);
    var claims := !Writes(StateOf(r, a)) && (Writes(m) || (t.ByFetch? && !m.Invalid?));
    r.(states := r.states[a := m],
       generation := r.generation + if leaves && (t.ByInvalidate? || t.ByReclaim?) then 1 else 0,
       readGenerations := if claims then r.readGenerations[a := r.generation] else r.readGenerations,
       observed := if m.Invalid? then r.observed else r.observed[a := |r.history|])
  }

  function Cleared(r: Record, a: Agent): Record { r.(transients := r.transients - {a}) }

  function Peers(r: Record, a: Agent): set<Agent> { set b | b in r.states && b != a && !r.states[b].Invalid? }

  function PeersInvalidated(r: Record, a: Agent): map<Agent, Mesi> {
    map b | b in r.states :: if b == a then r.states[b] else Invalid
  }

  function Fetch(r: Record, a: Agent): (Record, Mesi) {
    var grant := if Peers(r, a) == {} then Exclusive else SharedState;
    var demoted := set b | b in r.states && b != a && Writes(r.states[b]);
    var r1 := r.(
      states := map b | b in r.states :: if b in demoted then SharedState else r.states[b],
      observed := map b | b in r.observed.Keys + demoted :: if b in demoted then |r.history| else r.observed[b]);
    (Cleared(SetState(r1, a, grant, ByFetch), a), grant)
  }

  /** The pessimistic acquire: peers lose their grants, the caller takes EXCLUSIVE. */
  function Acquire(r: Record, a: Agent): Record {
    var r1 := r.(states := PeersInvalidated(r, a), transients := r.transients + Peers(r, a));
    Cleared(SetState(r1, a, Exclusive, ByWrite), a)
  }

  predicate Superseded(r: Record, a: Agent) {
    a in r.readGenerations && r.readGenerations[a] < r.generation
  }

  datatype CommitAnswer = Committed | NotAllowed | StaleGeneration

  function Commit(r: Record, a: Agent, content: Content): (Record, CommitAnswer) {
    if !Writes(StateOf(r, a)) then (r, NotAllowed)
    else if Superseded(r, a) then (Cleared(r, a), StaleGeneration)
    else
      var r1 := r.(history := r.history + [content], states := PeersInvalidated(r, a), transients := r.transients + Peers(r, a));
      (Cleared(SetState(r1, a, Modified, ByCommit), a), Committed)
  }

  datatype Refusal = CallerTransient | HoldsGrant | Corruption
  datatype Conflict = VersionMismatch | OtherHolder | StaleReadGeneration
  datatype CasAnswer = CasWon | CasLost(why: Conflict, current: nat) | CasRefused(refusal: Refusal)

  predicate OtherWriter(r: Record, a: Agent) { exists b :: b in r.states && b != a && Writes(r.states[b]) }

  function CommitCas(r: Record, a: Agent, expected: int, content: Content): (Record, CasAnswer) {
    if a in r.transients then (r, CasRefused(CallerTransient))
    else if Writes(StateOf(r, a)) then (r, CasRefused(HoldsGrant))
    else if expected > |r.history| then (r, CasRefused(Corruption))
    else if expected < |r.history| then (r, CasLost(VersionMismatch, |r.history|))
    else if OtherWriter(r, a) then (r, CasLost(OtherHolder, |r.history|))
    else if Superseded(r, a) then (r, CasLost(StaleReadGeneration, |r.history|))
    else
      (r.(history := r.history + [content],
          states := PeersInvalidated(r, a)[a := SharedState],
          observed := r.observed[a := |r.history| + 1]), CasWon)
  }

  /** A peer's invalidation is obsolete for an agent that holds a grant and has observed as new a version. */
  predicate Obsolete(r: Record, a: Agent, newVersion: int, issuer: Agent) {
    issuer != a && !StateOf(r, a).Invalid? && a in r.observed && r.observed[a] >= newVersion
  }

  function Invalidate(r: Record, a: Agent, newVersion: int, issuer: Agent): Record {
    if Obsolete(r, a, newVersion, issuer) then r else Cleared(SetState(r, a, Invalid, ByInvalidate), a)
  }

  /** A broadcast lands only at the current version and only on a recipient without a write claim. */
  predicate UpdateLands(r: Record, a: Agent, version: int) { version >= |r.history| && !Writes(StateOf(r, a)) }

  /** The registry's half of a broadcast delivery; the writer relinquishes with it. */
  function Updated(r: Record, a: Agent, version: int, writer: Option<Agent>): Record {
    var r1 := if UpdateLands(r, a, version) then SetState(r, a, SharedState, ByUpdate) else r;
    var r2 := Cleared(r1, a);
    match writer
    case None => r2
    case Some(b) => Cleared(if UpdateLands(r, a, version) then SetState(r2, b, SharedState, ByUpdate) else r2, b)
  }

  function Reclaim(r: Record, a: Agent): Record { Cleared(SetState(r, a, Invalid, ByReclaim), a) }

  // ----- what every operation keeps -----

  lemma FetchKeepsOneWriter(r: Record, a: Agent)
    requires AtMostOneWriter(r)
    ensures AtMostOneWriter(Fetch(r, a).0)
  {
    assert forall b :: b in r.states && b != a && !r.states[b].Invalid? ==> b in Peers(r, a);
  }

  lemma AcquireKeepsOneWriter(r: Record, a: Agent)
    requires AtMostOneWriter(r)
    ensures AtMostOneWriter(Acquire(r, a))
  {
  }

  lemma CommitKeepsOneWriter(r: Record, a: Agent, content: Content)
    requires AtMostOneWriter(r)
    ensures AtMostOneWriter(Commit(r, a, content).0)
  {
  }

  lemma CasKeepsOneWriter(r: Record, a: Agent, expected: int, content: Content)
    requires AtMostOneWriter(r)
    ensures AtMostOneWriter(CommitCas(r, a, expected, content).0)
  {
  }

  lemma RevokeKeepsOneWriter(r: Record, a: Agent, version: int, issuer: Agent)
    requires AtMostOneWriter(r)
    ensures AtMostOneWriter(Invalidate(r, a, version, issuer)) && AtMostOneWriter(Reclaim(r, a))
  {
  }

  lemma UpdateKeepsOneWriter(r: Record, a: Agent, version: int, writer: Option<Agent>)
    requires AtMostOneWriter(r)
    ensures AtMostOneWriter(Updated(r, a, version, writer))
  {
  }

  /** A broadcast never takes the recipient's write claim; it takes another agent's exactly when that agent is
      the named writer, the broadcast is of the current version, and the recipient has no claim. */
  lemma ClaimsUnderBroadcast(r: Record, a: Agent, version: int, writer: Option<Agent>, holder: Agent)
    requires Writes(StateOf(r, holder))
    ensures holder == a ==> Writes(StateOf(Updated(r, a, version, writer), a))
    ensures !Writes(StateOf(Updated(r, a, version, writer), holder)) <==> writer == Some(holder) && UpdateLands(r, a, version)
  {
  }

  /** So a writer that has already re-acquired loses its fresh EXCLUSIVE claim to the late broadcast of its own
      last commit, and its next commit is refused. */
  lemma LateBroadcastTakesFreshClaim(first: Content, second: Content, third: Content)
    ensures var r := Record([first], map[], map[], {}, 0, map[]);
      var acquired := Acquire(Commit(Acquire(r, 0), 0, second).0, 0);
      && Commit(acquired, 0, third).1 == Committed
      && Commit(Updated(acquired, 1, 2, Some(0)), 0, third).1 == NotAllowed
  {
  }

  /** A fetch that finds no other holder grants EXCLUSIVE, and an EXCLUSIVE holder may not commit optimistically: right
      after its own fetch an agent's optimistic commit is refused exactly if it is the only holder. */
  lemma LoneFetcherIsRefused(r: Record, a: Agent, expected: int, content: Content)
    ensures CommitCas(Fetch(r, a).0, a, expected, content).1 == CasRefused(HoldsGrant) <==> Peers(r, a) == {}
  {
  }

  // ----- what each operation decides, and what it leaves to everyone -----

  predicate Holds(r: Record, a: Agent) { !StateOf(r, a).Invalid? }

  /** A fetch makes the caller a holder of the current version, the only one if nobody else holds; a peer's write grant shrinks to
      a read grant, and nobody loses a grant. */
  lemma FetchGrants(r: Record, a: Agent, b: Agent)
    ensures var (r1, grant) := Fetch(r, a);
      && r1.history == r.history && StateOf(r1, a) == grant && a in r1.observed && r1.observed[a] == |r.history| && r1.transients == r.transients - {a}
      && (grant == Exclusive <==> forall c :: c != a ==> !Holds(r, c)) && (grant == Exclusive || grant == SharedState)
      && (b != a ==> StateOf(r1, b) == if Writes(StateOf(r, b)) then SharedState else StateOf(r, b))
  {
    if Peers(r, a) != {} {
      var c :| c in Peers(r, a);
      assert Holds(r, c);
    } else {
      assert forall c :: c in r.states && c != a && !r.states[c].Invalid? ==> c in Peers(r, a);
    }
  }

  /** An acquire makes the caller the one holder; every former holder is INVALID and in transition, and no content changes. */
  lemma AcquireTakes(r: Record, a: Agent, b: Agent)
    ensures var r1 := Acquire(r, a);
      && r1.history == r.history && StateOf(r1, a) == Exclusive && a !in r1.transients
      && (b != a ==> StateOf(r1, b) == Invalid && (b in r1.transients <==> b in r.transients || Holds(r, b)))
  {
  }

  /** A pessimistic commit is accepted exactly from a write grant that no revocation has overtaken. Accepted, it appends the
      content and leaves the committer the one holder; refused, it changes no content and no grant. */
  lemma CommitDecides(r: Record, a: Agent, content: Content, b: Agent)
    ensures var (r1, answer) := Commit(r, a, content);
      && (answer == Committed <==> Writes(StateOf(r, a)) && !Superseded(r, a))
      && (answer == NotAllowed <==> !Writes(StateOf(r, a)))
      && r1.history == (if answer == Committed then r.history + [content] else r.history)
      && StateOf(r1, b) == (if answer != Committed then StateOf(r, b) else if b == a then Modified else Invalid)
      && (answer == Committed ==> a in r1.observed && r1.observed[a] == |r1.history| && a !in r1.transients)
      && (answer == Committed && b != a ==> (b in r1.transients <==> b in r.transients || Holds(r, b)))
  {
  }

  /** An optimistic commit wins exactly if the caller is in no transition and holds no write grant, the version is the one
      expected, nobody else holds a write grant, and no revocation has overtaken the caller's read. A win appends
      the content and leaves the committer the one holder, with a read grant; anything else changes nothing. */
  lemma CasDecides(r: Record, a: Agent, expected: int, content: Content, b: Agent)
    ensures var (r1, answer) := CommitCas(r, a, expected, content);
      var others := exists c :: c != a && Writes(StateOf(r, c));
      && (answer == CasWon <==> a !in r.transients && !Writes(StateOf(r, a)) && expected == |r.history| && !others && !Superseded(r, a))
      && (answer.CasRefused? <==> a in r.transients || Writes(StateOf(r, a)) || expected > |r.history|)
      && (answer.CasLost? ==> answer.current == |r.history| && (answer.why == VersionMismatch <==> expected < |r.history|))
      && (answer != CasWon ==> r1 == r)
      && (answer == CasWon ==> r1.history == r.history + [content] && StateOf(r1, b) == if b == a then SharedState else Invalid)
      && (answer == CasWon ==> a in r1.observed && r1.observed[a] == |r1.history| && r1.transients == r.transients)
  {
    assert OtherWriter(r, a) <==> exists c :: c != a && Writes(StateOf(r, c)) by {
      if exists c :: c != a && Writes(StateOf(r, c)) {
        var c :| c != a && Writes(StateOf(r, c));
        assert c in r.states;
      }
      if OtherWriter(r, a) {
        var c :| c in r.states && c != a && Writes(r.states[c]);
        assert Writes(StateOf(r, c));
      }
    }
  }
}
