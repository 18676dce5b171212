/** The registry's generation fence over runs of its operations. */
module RegistryFence {
  import opened Foundations
  import opened Grants
  import opened Registry

  datatype Act =
    | Fetches(agent: Agent)
    | Acquires(agent: Agent)
    | Commits(agent: Agent, content: Content)
    | Cases(agent: Agent, expected: int, content: Content)
    | Signalled(agent: Agent, version: int, issuer: Agent)
    | Delivered(agent: Agent, version: int, writer: Option<Agent>)
    | Swept(agent: Agent)

  function Step(r: Record, e: Act): Record {
    match e
    case Fetches(a) => Fetch(r, a).0
    case Acquires(a) => Acquire(r, a)
    case Commits(a, content) => Commit(r, a, content).0
    case Cases(a, expected, content) => CommitCas(r, a, expected, content).0
    case Signalled(a, version, issuer) => Invalidate(r, a, version, issuer)
    case Delivered(a, version, writer) => Updated(r, a, version, writer)
    case Swept(a) => Reclaim(r, a)
  }

  function Run(r: Record, es: seq<Act>): Record {
    if es == [] then r else Step(Run(r, es[..|es| - 1]), es[|es| - 1])
  }

  /** The agent takes a new claim: a fetch or an acquire by one without a write grant. */
  predicate Claims(r: Record, e: Act, a: Agent) { (e.Fetches? || e.Acquires?) && e.agent == a && !Writes(StateOf(r, a)) }

  /** A write grant is taken from its holder without a commit, by a signal or a sweep. */
  predicate Revokes(r: Record, e: Act) {
    (e.Signalled? || e.Swept?) && Writes(StateOf(r, e.agent)) && !Writes(StateOf(Step(r, e), e.agent))
  }

  predicate HasClaimed(r: Record, es: seq<Act>, a: Agent) {
    es != [] && (Claims(Run(r, es[..|es| - 1]), es[|es| - 1], a) || HasClaimed(r, es[..|es| - 1], a))
  }

  /** Since the agent's last claim somebody's write grant was revoked. */
  predicate Overtaken(r: Record, es: seq<Act>, a: Agent) {
    && es != []
    && var init, e := es[..|es| - 1], es[|es| - 1];
    !Claims(Run(r, init), e, a) && (Overtaken(r, init, a) || (HasClaimed(r, init, a) && Revokes(Run(r, init), e)))
  }

  ghost predicate FenceInv(r: Record, a: Agent, claimed: bool, overtaken: bool) {
    && (a in r.readGenerations <==> claimed) && (claimed ==> r.readGenerations[a] <= r.generation)
    && (Superseded(r, a) <==> overtaken)
  }

  lemma ClaimStep(r: Record, e: Act, a: Agent, claimed: bool, overtaken: bool)
    requires FenceInv(r, a, claimed, overtaken) && (e.Fetches? || e.Acquires?)
    ensures FenceInv(Step(r, e), a, claimed || Claims(r, e, a), overtaken && !Claims(r, e, a))
  {
  }

  lemma CommitStep(r: Record, e: Act, a: Agent, claimed: bool, overtaken: bool)
    requires FenceInv(r, a, claimed, overtaken) && (e.Commits? || e.Cases? || e.Delivered?)
    ensures FenceInv(Step(r, e), a, claimed, overtaken)
  {
  }

  lemma RevokeStep(r: Record, e: Act, a: Agent, claimed: bool, overtaken: bool)
    requires FenceInv(r, a, claimed, overtaken) && (e.Signalled? || e.Swept?)
    ensures FenceInv(Step(r, e), a, claimed, overtaken || (claimed && Revokes(r, e)))
  {
  }

  lemma FenceStep(r: Record, e: Act, a: Agent, claimed: bool, overtaken: bool)
    requires FenceInv(r, a, claimed, overtaken)
    ensures FenceInv(Step(r, e), a, claimed || Claims(r, e, a), !Claims(r, e, a) && (overtaken || (claimed && Revokes(r, e))))
  {
    if e.Fetches? || e.Acquires? {
      ClaimStep(r, e, a, claimed, overtaken);
    } else if e.Signalled? || e.Swept? {
      RevokeStep(r, e, a, claimed, overtaken);
    } else {
      CommitStep(r, e, a, claimed, overtaken);
    }
  }

  lemma {:induction false} FenceAlong(r: Record, es: seq<Act>, a: Agent)
    requires r.readGenerations == map[] && r.generation == 0
    ensures FenceInv(Run(r, es), a, HasClaimed(r, es, a), Overtaken(r, es, a))
    decreases |es|
  {
    if es != [] {
      var init, e := es[..|es| - 1], es[|es| - 1];
      FenceAlong(r, init, a);
      FenceStep(Run(r, init), e, a, HasClaimed(r, init, a), Overtaken(r, init, a));
    }
  }

  /** In every run of the registry: a commit, of either kind, goes through exactly if its grants allow it and, since the agent's
      last claim, no write grant was revoked. So nobody commits over a reclaimed writer from a read that is older. */
  lemma FenceIsExact(r: Record, es: seq<Act>, a: Agent, expected: int, content: Content)
    requires r.readGenerations == map[] && r.generation == 0
    ensures var now := Run(r, es);
      && (Commit(now, a, content).1 == Committed <==> Writes(StateOf(now, a)) && !Overtaken(r, es, a))
      && (CommitCas(now, a, expected, content).1 == CasWon <==>
            && a !in now.transients && !Writes(StateOf(now, a)) && expected == |now.history|
            && (forall c :: c != a ==> !Writes(StateOf(now, c))) && !Overtaken(r, es, a))
  {
    FenceAlong(r, es, a);
    CommitDecides(Run(r, es), a, content, a);
    CasDecides(Run(r, es), a, expected, content, a);
  }

  /** A revocation takes the grant for good: the holder's commit is refused until it claims again. */
  lemma RevokedCannotCommit(r: Record, a: Agent, version: int, issuer: Agent, content: Content)
    ensures Commit(Reclaim(r, a), a, content).1 == NotAllowed && StateOf(Reclaim(r, a), a) == Invalid
    ensures issuer == a ==> Commit(Invalidate(r, a, version, issuer), a, content).1 == NotAllowed
  {
  }
}
