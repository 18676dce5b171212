/** Any number of agents committing to one artifact through `CommitProtocol`, at the grain of
    single store and coordinator calls. Unconfirmed store writes and unconfirmed bumps may
    take effect late, or never; writers outside the coherence layer may touch the store. */
module CommitSystem {
  import opened Foundations
  import opened ForeignStore
  import opened CommitProtocol

  datatype View = Shared | Invalid

  /** The strict-mode coordinator record: the hash recorded at each version (version v at index
      v - 1), the standing of each session, and the session that committed last. */
  datatype Coordinator = Coordinator(hashes: seq<Digest>, views: map<Session, View>, lastWriter: Option<Session>)

  datatype InFlight = InFlight(token: Token, bytes: Bytes)

  datatype LateBump = LateBump(session: Session, version: nat, bytes: Bytes)

  datatype Doing =
    | Idle
    | Loaded(bytes: Bytes, token: Token, raiseOnStale: bool)
    | Committing(stage: Stage)

  /** `since` is the store's last position when the agent's latest commit began. */
  datatype Agent = Agent(session: Session, observed: Option<Digest>, doing: Doing, outcome: Option<Outcome>, since: nat)

  datatype World = World(
    store: Store,
    flight: set<InFlight>,
    coordinator: Coordinator,
    late: set<LateBump>,
    agents: map<nat, Agent>)

  /** What the environment decides about one call. */
  datatype Fate =
    | Served(salt: nat, lag: bool)   // answered; `lag` is the recent-own-commit window
    | LostAnswer                     // the answer is lost, the effect may still come
    | TurnedAway                     // S3 409, or a bump met by a pessimistic holder or the generation fence
    | Broken                         // the call raised and did nothing

  datatype Event =
    | Load(agent: nat, reacquire: bool, raiseOnStale: bool)
    | Register(agent: nat, fate: Fate)
    | Begin(agent: nat, token: Token, bytes: Bytes)
    | Advance(agent: nat, fate: Fate)
    | GhostLands(write: InFlight, salt: nat)
    | BumpLands(bump: LateBump)
    | Outsider(bytes: Bytes, salt: nat)
    | Vanish

  // ----- the coordinator -----

  function Version(c: Coordinator): nat { |c.hashes| }

  predicate Differs(c: Coordinator, hash: Option<Digest>)
    requires c.hashes != []
  {
    hash.Some? && hash.value != c.hashes[|c.hashes| - 1]
  }

  /** `/hooks/pre-read` on a strict path: a stateless session is hash-checked, an INVALID
      one is denied and stays INVALID, a SHARED one is denied on a hash mismatch unless it committed last, recently. */
  function PreReadAt(c: Coordinator, s: Session, hash: Option<Digest>, lag: bool): (Coordinator, PreReadReply)
    requires c.hashes != []
  {
    var v := Version(c);
    if s !in c.views then
      if Differs(c, hash) then (c, PreRead(v, true, true, None))
      else (c.(views := c.views[s := Shared]), PreRead(v, false, false, None))
    else if c.views[s].Invalid? then
      (c, PreRead(v, true, Differs(c, hash), Some(v - 1)))
    else if Differs(c, hash) && !(lag && c.lastWriter == Some(s)) then
      (c, PreRead(v, true, true, Some(v)))
    else
      (c, PreRead(v, false, Differs(c, hash), None))
  }

  /** `/hooks/post-edit-cas`: the version must match; the winner is SHARED, every other session INVALID. */
  function CommitCasAt(c: Coordinator, s: Session, version: nat, hash: Digest): (Coordinator, BumpReply) {
    if version > Version(c) then (c, BumpRejected)
    else if version < Version(c) then (c, BumpConflict(Some(Version(c))))
    else
      var views := map t | t in c.views.Keys + {s} :: if t == s then Shared else Invalid;
      (Coordinator(c.hashes + [hash], views, Some(s)), BumpWin(version + 1))
  }

  // ----- the store leg -----

  /** One conditional store write as its issuer sees it. */
  function CasAt(w: World, expected: Token, bytes: Bytes, fate: Fate): (World, CasReply) {
    if !Usable(w.store.binding, expected) || fate.Broken? then (w, CasFault)
    else if fate.LostAnswer? then (w.(flight := w.flight + {InFlight(expected, bytes)}), Unknown)
    else if fate.TurnedAway? && w.store.binding.S3Object? then (w, Conflicted)
    else
      var salt := if fate.Served? then fate.salt else 0;
      var store := ConditionalWrite(w.store, expected, bytes, salt);
      (w.(store := store), if store == w.store then Conflicted else Written(Current(store)))
  }

  function ReconcileAt(w: World, held: Token, intended: Digest, fate: Fate): ReconcileReply {
    if !Usable(w.store.binding, held) || fate.Broken? || fate.LostAnswer? then ReconcileFault
    else Decided(Reconcile(w.store, held, intended))
  }

  function BumpAt(w: World, s: Session, p: Pending, fate: Fate): (World, BumpReply) {
    match fate
    case Broken => (w, BumpRejected)
    case LostAnswer => (w.(late := w.late + {LateBump(s, p.version, p.bytes)}), BumpUnconfirmed)
    case TurnedAway => (w, BumpConflict(Some(Version(w.coordinator))))
    case Served(_, _) =>
      var (c, reply) := CommitCasAt(w.coordinator, s, p.version, Sha256(p.bytes));
      (w.(coordinator := c), reply)
  }

  /** The pre-read leg of one call. */
  function PreReadWith(w: World, s: Session, hash: Option<Digest>, fate: Fate): (World, PreReadReply)
    requires w.coordinator.hashes != []
  {
    if !fate.Served? then (w, PreReadFault)
    else
      var (c, reply) := PreReadAt(w.coordinator, s, hash, fate.lag);
      (w.(coordinator := c), reply)
  }

  /** The call a commit in stage `s` makes, carried out on the world. */
  function Serve(w: World, session: Session, s: Stage, fate: Fate): (r: (World, Exchange))
    requires w.coordinator.hashes != [] && !s.Done?
    ensures Accepts(s, r.1)
  {
    match s
    case Checking(_, _, observed) =>
      var (w', r) := PreReadWith(w, session, observed, fate);
      (w', AskPreRead(observed, r))
    case Writing(p) =>
      var (w', r) := CasAt(w, p.token, p.bytes, fate);
      (w', AskCas(p.token, p.bytes, r))
    case Settling(p) => (w, AskReconcile(p.token, Sha256(p.bytes), ReconcileAt(w, p.token, Sha256(p.bytes), fate)))
    case Redriving(p, under) =>
      var (w', r) := CasAt(w, under, p.bytes, fate);
      (w', AskCas(under, p.bytes, r))
    case Resettling(p) => (w, AskReconcile(p.token, Sha256(p.bytes), ReconcileAt(w, p.token, Sha256(p.bytes), fate)))
    case Bumping(p, _) =>
      var (w', r) := BumpAt(w, session, p, fate);
      (w', AskBump(p.version, Sha256(p.bytes), r))
    case Confirming(p, _) =>
      var (w', r) := PreReadWith(w, session, Some(Sha256(p.bytes)), fate);
      (w', AskPreRead(Some(Sha256(p.bytes)), r))
  }

  function StageBytes(s: Stage): Bytes
    requires !s.Done?
  {
    if s.Checking? then s.bytes else s.p.bytes
  }

  /** The agent after its commit moved to stage `t`. */
  function Settle(agent: Agent, bytes: Bytes, t: Stage): Agent {
    if t.Done? then
      var observed := if t.outcome.Committed? && !t.outcome.noop then Some(Sha256(bytes)) else agent.observed;
      agent.(observed := observed, doing := Idle, outcome := Some(t.outcome))
    else agent.(doing := Committing(t))
  }

  function AdvanceAgent(w: World, a: nat, s: Stage, fate: Fate): World
    requires a in w.agents && w.coordinator.hashes != [] && !s.Done?
  {
    var (w', x) := Serve(w, w.agents[a].session, s, fate);
    var t := Next(s, x);
    w'.(agents := w.agents[a := Settle(w.agents[a], StageBytes(s), t)])
  }

  function LoadAgent(w: World, a: nat, reacquire: bool, raiseOnStale: bool): World
    requires a in w.agents
  {
    var agent := w.agents[a];
    var minted := if reacquire then agent.(session := Session(a, agent.session.mint + 1)) else agent;
    var doing := if w.store.present then Loaded(Latest(w.store), Current(w.store), raiseOnStale) else Idle;
    w.(agents := w.agents[a := minted.(doing := doing)])
  }

  function RegisterAgent(w: World, a: nat, fate: Fate): World
    requires a in w.agents && w.agents[a].doing.Loaded? && w.coordinator.hashes != []
  {
    var agent := w.agents[a];
    var hash := Sha256(agent.doing.bytes);
    var (w', r) := PreReadWith(w, agent.session, Some(hash), fate);
    var observed := if r.PreRead? then Some(hash) else agent.observed;
    w'.(agents := w.agents[a := agent.(observed := observed, doing := Idle)])
  }

  /** One step. An event that does not apply leaves the world as it is. */
  function Step(w: World, e: Event): (r: World)
    requires w.coordinator.hashes != []
    ensures w.coordinator.hashes <= r.coordinator.hashes
    ensures Extends(w.store, r.store)
  {
    match e
    case Load(a, reacquire, raiseOnStale) =>
      if a in w.agents && w.agents[a].doing.Idle? then LoadAgent(w, a, reacquire, raiseOnStale) else w
    case Register(a, fate) =>
      if a in w.agents && w.agents[a].doing.Loaded? then RegisterAgent(w, a, fate) else w
    case Begin(a, token, bytes) =>
      if a in w.agents && w.agents[a].doing.Idle?
      then w.(agents := w.agents[a := w.agents[a].(doing := Committing(Checking(token, bytes, w.agents[a].observed)), since := |w.store.log| - 1)])
      else w
    case Advance(a, fate) =>
      if a in w.agents && w.agents[a].doing.Committing? && !w.agents[a].doing.stage.Done?
      then AdvanceAgent(w, a, w.agents[a].doing.stage, fate) else w
    case GhostLands(g, salt) =>
      if g in w.flight then w.(store := ConditionalWrite(w.store, g.token, g.bytes, salt)) else w
    case BumpLands(b) =>
      if b in w.late then w.(coordinator := CommitCasAt(w.coordinator, b.session, b.version, Sha256(b.bytes)).0) else w
    case Outsider(bytes, salt) =>
      if w.store.present then w.(store := w.store.(log := w.store.log + [Entry(bytes, salt, None)])) else w
    case Vanish => w.(store := w.store.(present := false))
  }

  function Run(w: World, es: seq<Event>): (r: World)
    requires w.coordinator.hashes != []
    ensures w.coordinator.hashes <= r.coordinator.hashes
    ensures Extends(w.store, r.store)
    decreases |es|
  {
    if es == [] then w else Run(Step(w, es[0]), es[1..])
  }

  /** Agents idle, one seeded content that the coordinator records as version 1. */
  predicate Initial(w: World) {
    && |w.store.log| == 1 && w.store.log[0].under.None?
    && w.coordinator.hashes == [Sha256(w.store.log[0].bytes)]
    && w.flight == {} && w.late == {}
    && forall a :: a in w.agents ==> w.agents[a].doing.Idle?
  }

  // ----- what every run keeps -----

  /** `f` places the recorded hashes in the store's history, in order: never ahead of it, never reordered. */
  ghost predicate Follows(f: seq<nat>, hashes: seq<Digest>, log: Log) {
    && |f| == |hashes|
    && (forall i :: 0 <= i < |f| ==> f[i] < |log| && Sha256(log[f[i]].bytes) == hashes[i])
    && (forall i, j :: 0 <= i < j < |f| ==> f[i] <= f[j])
  }

  /** The bytes landed at a position no earlier than `since`, nor than the write behind any record up to `version`. */
  ghost predicate Witnessed(log: Log, f: seq<nat>, since: nat, version: nat, bytes: Bytes) {
    && 0 < version <= |f|
    && exists q :: since <= q < |log| && log[q].bytes == bytes && forall i :: 0 <= i < version ==> f[i] <= q
  }

  ghost predicate StageInv(store: Store, f: seq<nat>, since: nat, s: Stage) {
    && since < |store.log|
    && match s
       case Checking(_, _, _) => true
       case Writing(p) => 0 < p.version <= |f|
       case Settling(p) => 0 < p.version <= |f|
       case Redriving(p, under) => 0 < p.version <= |f| && under == p.token && store.binding.S3Object?
       case Resettling(p) => 0 < p.version <= |f|
       case Bumping(p, _) => Witnessed(store.log, f, since, p.version, p.bytes)
       case Confirming(p, _) => Witnessed(store.log, f, since, p.version, p.bytes)
       case Done(_) => false
  }

  ghost predicate AgentsInv(store: Store, f: seq<nat>, agents: map<nat, Agent>) {
    forall a :: a in agents && agents[a].doing.Committing? ==> StageInv(store, f, agents[a].since, agents[a].doing.stage)
  }

  ghost predicate LateInv(log: Log, f: seq<nat>, late: set<LateBump>) {
    forall b :: b in late ==> Witnessed(log, f, 0, b.version, b.bytes)
  }

  ghost predicate Inv(w: World, f: seq<nat>) {
    && w.coordinator.hashes != [] && Chained(w.store.binding, w.store.log) && Follows(f, w.coordinator.hashes, w.store.log)
    && AgentsInv(w.store, f, w.agents) && LateInv(w.store.log, f, w.late)
  }

  // ----- preservation -----

  lemma WitnessStays(log: Log, more: Log, f: seq<nat>, g: seq<nat>, since: nat, version: nat, bytes: Bytes)
    requires Witnessed(log, f, since, version, bytes) && log <= more && f <= g
    ensures Witnessed(more, g, since, version, bytes)
  {
    var q :| since <= q < |log| && log[q].bytes == bytes && forall i :: 0 <= i < version ==> f[i] <= q;
    assert more[q].bytes == bytes && forall i :: 0 <= i < version ==> g[i] <= q;
  }

  lemma StageStays(store: Store, more: Store, f: seq<nat>, g: seq<nat>, since: nat, s: Stage)
    requires StageInv(store, f, since, s) && Extends(store, more) && f <= g
    ensures StageInv(more, g, since, s)
  {
    if s.Bumping? || s.Confirming? { WitnessStays(store.log, more.log, f, g, since, s.p.version, s.p.bytes); }
  }

  /** What is under way is unaffected by a longer history and longer records. */
  lemma OthersStay(w: World, store: Store, f: seq<nat>, g: seq<nat>)
    requires Inv(w, f) && Extends(w.store, store) && f <= g
    ensures AgentsInv(store, g, w.agents) && LateInv(store.log, g, w.late)
  {
    forall a | a in w.agents && w.agents[a].doing.Committing? ensures StageInv(store, g, w.agents[a].since, w.agents[a].doing.stage) {
      StageStays(w.store, store, f, g, w.agents[a].since, w.agents[a].doing.stage);
    }
    forall b | b in w.late ensures Witnessed(store.log, g, 0, b.version, b.bytes) {
      WitnessStays(w.store.log, store.log, f, g, 0, b.version, b.bytes);
    }
  }

  lemma StoreMoves(w: World, f: seq<nat>, store: Store)
    requires Inv(w, f) && Extends(w.store, store) && Chained(store.binding, store.log)
    ensures Inv(w.(store := store), f)
  {
    OthersStay(w, store, f, f);
    assert forall i :: 0 <= i < |f| ==> store.log[f[i]] == w.store.log[f[i]];
  }

  lemma WriteIsChained(s: Store, expected: Token, bytes: Bytes, salt: nat)
    requires Chained(s.binding, s.log)
    ensures var t := ConditionalWrite(s, expected, bytes, salt); Extends(s, t) && Chained(t.binding, t.log)
  {
    var t := ConditionalWrite(s, expected, bytes, salt);
    assert forall p :: 0 <= p < |s.log| ==> t.log[p] == s.log[p];
  }

  lemma OutsideIsChained(s: Store, e: Entry)
    requires Chained(s.binding, s.log) && e.under.None?
    ensures Chained(s.binding, s.log + [e])
  {
    var log: Log := s.log + [e];
    assert forall p :: 0 <= p < |s.log| ==> log[p] == s.log[p];
  }

  /** The last position is no earlier than any record's. */
  lemma LatestWitnesses(log: Log, f: seq<nat>, hashes: seq<Digest>, since: nat, version: nat)
    requires Follows(f, hashes, log) && since < |log| && 0 < version <= |f|
    ensures Witnessed(log, f, since, version, log[|log| - 1].bytes)
  {
  }

  /** A bump of witnessed bytes is placed at its witness. */
  lemma BumpKeeps(w: World, f: seq<nat>, s: Session, version: nat, bytes: Bytes, since: nat) returns (g: seq<nat>)
    requires Inv(w, f) && Witnessed(w.store.log, f, since, version, bytes)
    ensures f <= g && Inv(w.(coordinator := CommitCasAt(w.coordinator, s, version, Sha256(bytes)).0), g)
  {
    g := f;
    if version == Version(w.coordinator) {
      var q: nat :| since <= q < |w.store.log| && w.store.log[q].bytes == bytes && forall i :: 0 <= i < version ==> f[i] <= q;
      g := f + [q];
      OthersStay(w, w.store, f, g);
    }
  }

  lemma AgentMoves(w: World, f: seq<nat>, a: nat, agent: Agent)
    requires Inv(w, f) && (agent.doing.Committing? ==> StageInv(w.store, f, agent.since, agent.doing.stage))
    ensures Inv(w.(agents := w.agents[a := agent]), f)
  {
  }

  lemma CasKeeps(w: World, f: seq<nat>, token: Token, bytes: Bytes, fate: Fate, since: nat, version: nat)
    requires Inv(w, f) && since < |w.store.log| && 0 < version <= |f|
    ensures var (w', r) := CasAt(w, token, bytes, fate);
      && Inv(w', f) && w'.agents == w.agents && Extends(w.store, w'.store)
      && (r.Written? ==> Witnessed(w'.store.log, f, since, version, bytes))
  {
    var salt := if fate.Served? then fate.salt else 0;
    var store := ConditionalWrite(w.store, token, bytes, salt);
    WriteIsChained(w.store, token, bytes, salt);
    StoreMoves(w, f, store);
    LatestWitnesses(store.log, f, w.coordinator.hashes, since, version);
  }

  lemma BumpCallKeeps(w: World, f: seq<nat>, s: Session, p: Pending, fate: Fate, since: nat) returns (g: seq<nat>)
    requires Inv(w, f) && Witnessed(w.store.log, f, since, p.version, p.bytes)
    ensures var (w', r) := BumpAt(w, s, p, fate);
      f <= g && Inv(w', g) && w'.agents == w.agents && w'.store == w.store
  {
    g := f;
    if fate.Served? {
      g := BumpKeeps(w, f, s, p.version, p.bytes, since);
    } else if fate.LostAnswer? {
      WitnessAnyTime(w.store.log, f, since, p.version, p.bytes);
    }
  }

  lemma WitnessAnyTime(log: Log, f: seq<nat>, since: nat, version: nat, bytes: Bytes)
    requires Witnessed(log, f, since, version, bytes)
    ensures Witnessed(log, f, 0, version, bytes)
  {
  }

  lemma ViewsKeep(w: World, f: seq<nat>, c: Coordinator)
    requires Inv(w, f) && c.hashes == w.coordinator.hashes
    ensures Inv(w.(coordinator := c), f)
  {
  }

  /** A call keeps the invariant, and the stage it leads to fits the new world. */
  lemma CallKeeps(w: World, f: seq<nat>, session: Session, since: nat, s: Stage, fate: Fate) returns (g: seq<nat>)
    requires Inv(w, f) && StageInv(w.store, f, since, s)
    ensures var (w', x) := Serve(w, session, s, fate);
      && f <= g && Inv(w', g) && w'.agents == w.agents
      && (Next(s, x).Done? || StageInv(w'.store, g, since, Next(s, x)))
  {
    g := f;
    match s
    case Checking(_, _, observed) => ViewsKeep(w, f, PreReadWith(w, session, observed, fate).0.coordinator);
    case Writing(p) => CasKeeps(w, f, p.token, p.bytes, fate, since, p.version);
    case Redriving(p, _) => CasKeeps(w, f, p.token, p.bytes, fate, since, p.version);
    case Settling(p) => LatestWitnesses(w.store.log, f, w.coordinator.hashes, since, p.version);
    case Resettling(p) => LatestWitnesses(w.store.log, f, w.coordinator.hashes, since, p.version);
    case Bumping(p, _) =>
      g := BumpCallKeeps(w, f, session, p, fate, since);
      StageStays(w.store, w.store, f, g, since, s);
    case Confirming(p, _) => ViewsKeep(w, f, PreReadWith(w, session, Some(Sha256(p.bytes)), fate).0.coordinator);
  }

  lemma AdvanceKeeps(w: World, f: seq<nat>, a: nat, fate: Fate) returns (g: seq<nat>)
    requires Inv(w, f) && a in w.agents && w.agents[a].doing.Committing?
    ensures !w.agents[a].doing.stage.Done? && f <= g && Inv(AdvanceAgent(w, a, w.agents[a].doing.stage, fate), g)
  {
    var agent, s := w.agents[a], w.agents[a].doing.stage;
    g := CallKeeps(w, f, agent.session, agent.since, s, fate);
    var (w', x) := Serve(w, agent.session, s, fate);
    AgentMoves(w', g, a, Settle(agent, StageBytes(s), Next(s, x)));
  }

  lemma RegisterKeeps(w: World, f: seq<nat>, a: nat, fate: Fate)
    requires Inv(w, f) && a in w.agents && w.agents[a].doing.Loaded?
    ensures Inv(RegisterAgent(w, a, fate), f)
  {
    var after := RegisterAgent(w, a, fate);
    ViewsKeep(w, f, after.coordinator);
    AgentMoves(w.(coordinator := after.coordinator), f, a, after.agents[a]);
  }

  lemma StepKeeps(w: World, f: seq<nat>, e: Event) returns (g: seq<nat>)
    requires Inv(w, f)
    ensures f <= g && Inv(Step(w, e), g)
  {
    g := f;
    match e
    case Advance(a, fate) =>
      if a in w.agents && w.agents[a].doing.Committing? { g := AdvanceKeeps(w, f, a, fate); }
    case GhostLands(write, salt) =>
      WriteIsChained(w.store, write.token, write.bytes, salt);
      StoreMoves(w, f, ConditionalWrite(w.store, write.token, write.bytes, salt));
    case BumpLands(b) =>
      if b in w.late { g := BumpKeeps(w, f, b.session, b.version, b.bytes, 0); }
    case Outsider(bytes, salt) =>
      OutsideIsChained(w.store, Entry(bytes, salt, None));
      StoreMoves(w, f, w.store.(log := w.store.log + [Entry(bytes, salt, None)]));
    case Load(a, reacquire, raiseOnStale) =>
      if a in w.agents { AgentMoves(w, f, a, LoadAgent(w, a, reacquire, raiseOnStale).agents[a]); }
    case Register(a, fate) =>
      if a in w.agents && w.agents[a].doing.Loaded? { RegisterKeeps(w, f, a, fate); }
    case Begin(a, token, bytes) =>
      if a in w.agents && w.agents[a].doing.Idle? { AgentMoves(w, f, a, Step(w, e).agents[a]); }
    case Vanish => StoreMoves(w, f, w.store.(present := false));
  }

  lemma {:induction false} RunKeeps(w: World, f: seq<nat>, es: seq<Event>) returns (g: seq<nat>)
    requires Inv(w, f)
    ensures Inv(Run(w, es), g)
    decreases |es|
  {
    g := f;
    if es != [] {
      g := StepKeeps(w, f, es[0]);
      g := RunKeeps(Step(w, es[0]), g, es[1..]);
    }
  }

  lemma Reached(w: World, es: seq<Event>) returns (g: seq<nat>)
    requires Initial(w)
    ensures Inv(Run(w, es), g)
  {
    assert Inv(w, [0]);
    g := RunKeeps(w, [0], es);
  }

  // ----- records -----

  /** In every run, whatever is lost, delayed, repeated or written from outside, the recorded hashes lie in order in
      the store's write history: never ahead of it, never reordered. */
  lemma RecordsFollowStore(w: World, es: seq<Event>) returns (f: seq<nat>)
    requires Initial(w)
    ensures Follows(f, Run(w, es).coordinator.hashes, Run(w, es).store.log)
  {
    f := Reached(w, es);
  }

  /** `f` embeds the recorded hashes strictly: each has a landed write of its own. */
  ghost predicate Embeds(f: seq<nat>, hashes: seq<Digest>, log: Log) {
    && |f| == |hashes|
    && (forall i :: 0 <= i < |f| ==> f[i] < |log| && Sha256(log[f[i]].bytes) == hashes[i])
    && (forall i, j :: 0 <= i < j < |f| ==> f[i] < f[j])
  }

  /** The same hash is recorded at two successive versions. */
  ghost predicate Twice(hashes: seq<Digest>) { exists v :: 0 < v < |hashes| && hashes[v - 1] == hashes[v] }

  lemma FollowsStrictly(f: seq<nat>, hashes: seq<Digest>, log: Log)
    requires Follows(f, hashes, log) && !Twice(hashes)
    ensures Embeds(f, hashes, log)
  {
    forall i, j | 0 <= i < j < |f| ensures f[i] < f[j] {
      assert f[i] <= f[j - 1] <= f[j];
      assert hashes[j - 1] != hashes[j];
    }
  }

  lemma StrictIsNotTwice(f: seq<nat>, hashes: seq<Digest>, log: Log)
    requires Embeds(f, hashes, log) && DistinctBytes(log)
    ensures !Twice(hashes)
  {
    forall v | 0 < v < |hashes| ensures hashes[v - 1] != hashes[v] {
      assert f[v - 1] < f[v];
    }
  }

  /** This step makes a bump take effect whose bytes were already the record when its commit passed its check: the
      bump names the version the check saw, and that version's hash is the bytes'. */
  predicate RecordsAgain(w: World, e: Event)
    requires w.coordinator.hashes != []
  {
    var c := w.coordinator;
    match e
    case Advance(a, fate) =>
      && a in w.agents && w.agents[a].doing.Committing? && w.agents[a].doing.stage.Bumping? && fate.Served?
      && w.agents[a].doing.stage.p.version == Version(c) && Sha256(w.agents[a].doing.stage.p.bytes) == c.hashes[Version(c) - 1]
    case BumpLands(b) => b in w.late && b.version == Version(c) && Sha256(b.bytes) == c.hashes[Version(c) - 1]
    case _ => false
  }

  lemma StepRecords(w: World, e: Event)
    requires w.coordinator.hashes != []
    ensures Twice(Step(w, e).coordinator.hashes) <==> Twice(w.coordinator.hashes) || RecordsAgain(w, e)
  {
    var before, after := w.coordinator.hashes, Step(w, e).coordinator.hashes;
    assert before <= after && |after| <= |before| + 1;
    if |after| == |before| {
      assert after == before;
    } else {
      assert after[|before| - 1] == before[|before| - 1];
      assert RecordsAgain(w, e) <==> after[|before|] == after[|before| - 1];
      if Twice(before) {
        var v :| 0 < v < |before| && before[v - 1] == before[v];
        assert after[v - 1] == after[v];
      }
    }
  }

  /** Some step of the run does. */
  predicate RecordsAgainDuring(w: World, es: seq<Event>)
    requires w.coordinator.hashes != []
    decreases |es|
  {
    es != [] && (RecordsAgain(w, es[0]) || RecordsAgainDuring(Step(w, es[0]), es[1..]))
  }

  /** In every run a hash is recorded at two successive versions exactly if a commit whose bytes were already the
      record at its check has its bump take effect. */
  lemma {:induction false} RecordedTwiceExactly(w: World, es: seq<Event>)
    requires w.coordinator.hashes != []
    ensures Twice(Run(w, es).coordinator.hashes) <==> Twice(w.coordinator.hashes) || RecordsAgainDuring(w, es)
    decreases |es|
  {
    if es != [] {
      StepRecords(w, es[0]);
      RecordedTwiceExactly(Step(w, es[0]), es[1..]);
    }
  }

  /** A check that passes for bytes which are the coordinator's current record. */
  predicate PassesRecorded(w: World, e: Event)
    requires w.coordinator.hashes != []
  {
    && e.Advance? && e.agent in w.agents && w.agents[e.agent].doing.Committing? && w.agents[e.agent].doing.stage.Checking?
    && var s := w.agents[e.agent].doing.stage;
       Next(s, Serve(w, w.agents[e.agent].session, s, e.fate).1).Writing? && Sha256(s.bytes) == w.coordinator.hashes[Version(w.coordinator) - 1]
  }

  /** The version the check saw holds another hash. */
  ghost predicate Renews(hashes: seq<Digest>, version: nat, bytes: Bytes) {
    0 < version <= |hashes| && hashes[version - 1] != Sha256(bytes)
  }

  ghost predicate RenewsInv(w: World) {
    && (forall a :: a in w.agents && w.agents[a].doing.Committing? && !w.agents[a].doing.stage.Checking? ==>
          !w.agents[a].doing.stage.Done? && Renews(w.coordinator.hashes, w.agents[a].doing.stage.p.version, w.agents[a].doing.stage.p.bytes))
    && (forall b :: b in w.late ==> Renews(w.coordinator.hashes, b.version, b.bytes))
  }

  lemma CallRenews(w: World, a: nat, s: Stage, fate: Fate)
    requires w.coordinator.hashes != [] && RenewsInv(w) && a in w.agents && w.agents[a].doing == Committing(s) && !s.Done?
    requires !PassesRecorded(w, Advance(a, fate))
    ensures var (w', x) := Serve(w, w.agents[a].session, s, fate);
      && w.coordinator.hashes <= w'.coordinator.hashes && w'.agents == w.agents
      && (Next(s, x).Done? || Renews(w'.coordinator.hashes, Next(s, x).p.version, Next(s, x).p.bytes))
      && forall b :: b in w'.late ==> Renews(w'.coordinator.hashes, b.version, b.bytes)
  {
  }

  lemma OwnStepRenews(w: World, a: nat, s: Stage, fate: Fate)
    requires w.coordinator.hashes != [] && RenewsInv(w) && a in w.agents && w.agents[a].doing == Committing(s) && !s.Done?
    requires !PassesRecorded(w, Advance(a, fate))
    ensures RenewsInv(AdvanceAgent(w, a, s, fate))
  {
    CallRenews(w, a, s, fate);
    var (w', x) := Serve(w, w.agents[a].session, s, fate);
    var agents := w.agents[a := Settle(w.agents[a], StageBytes(s), Next(s, x))];
    assert forall b :: b in agents && b != a ==> agents[b] == w.agents[b];
  }

  lemma StepRenews(w: World, e: Event)
    requires w.coordinator.hashes != [] && RenewsInv(w) && !PassesRecorded(w, e)
    ensures RenewsInv(Step(w, e)) && !RecordsAgain(w, e)
  {
    if e.Advance? && e.agent in w.agents && w.agents[e.agent].doing.Committing? && !w.agents[e.agent].doing.stage.Done? {
      OwnStepRenews(w, e.agent, w.agents[e.agent].doing.stage, e.fate);
    }
  }

  /** Some check of the run does. */
  predicate PassesRecordedDuring(w: World, es: seq<Event>)
    requires w.coordinator.hashes != []
    decreases |es|
  {
    es != [] && (PassesRecorded(w, es[0]) || PassesRecordedDuring(Step(w, es[0]), es[1..]))
  }

  lemma {:induction false} RunRenews(w: World, es: seq<Event>)
    requires w.coordinator.hashes != [] && RenewsInv(w) && !PassesRecordedDuring(w, es)
    ensures !RecordsAgainDuring(w, es)
    decreases |es|
  {
    if es != [] {
      StepRenews(w, es[0]);
      RunRenews(Step(w, es[0]), es[1..]);
    }
  }

  /** In every run in which no commit passes its check with bytes that are already the record, each recorded hash has
      a landed write of its own, in order. */
  lemma RecordsFollowStrictly(w: World, es: seq<Event>) returns (f: seq<nat>)
    requires Initial(w) && !PassesRecordedDuring(w, es)
    ensures Embeds(f, Run(w, es).coordinator.hashes, Run(w, es).store.log)
  {
    f := Reached(w, es);
    RunRenews(w, es);
    RecordedTwiceExactly(w, es);
    FollowsStrictly(f, Run(w, es).coordinator.hashes, Run(w, es).store.log);
  }

  /** Where no content lands twice this is exact: the recorded hashes are a strict subsequence of the history if and only
      if no commit of bytes already recorded at its check has its bump take effect. */
  lemma StrictExactly(w: World, es: seq<Event>)
    requires Initial(w) && DistinctBytes(Run(w, es).store.log)
    ensures (exists f :: Embeds(f, Run(w, es).coordinator.hashes, Run(w, es).store.log)) <==> !RecordsAgainDuring(w, es)
  {
    var hashes, log := Run(w, es).coordinator.hashes, Run(w, es).store.log;
    RecordedTwiceExactly(w, es);
    if exists f :: Embeds(f, hashes, log) {
      var f :| Embeds(f, hashes, log);
      StrictIsNotTwice(f, hashes, log);
    }
    if !Twice(hashes) {
      var f := Reached(w, es);
      FollowsStrictly(f, hashes, log);
    }
  }

  // ----- tokens -----

  /** In every run each landed conditional write replaced exactly the state whose token it named. */
  lemma LandedWritesReplaceTheirToken(w: World, es: seq<Event>, p: nat)
    requires Initial(w) && p < |Run(w, es).store.log| && Run(w, es).store.log[p].under.Some?
    ensures p > 0 && Run(w, es).store.log[p].under == Some(TokenAt(Run(w, es).store.binding, Run(w, es).store.log, p - 1))
  {
    var f := Reached(w, es);
  }

  /** No token comes back. */
  ghost predicate FreshTokens(s: Store) {
    forall i, j :: 0 <= i < j < |s.log| ==> TokenAt(s.binding, s.log, i) != TokenAt(s.binding, s.log, j)
  }

  /** So it always is for rows, and for objects while no content comes back. */
  lemma TokensAreFresh(s: Store)
    requires s.binding.PgRow? || DistinctBytes(s.log)
    ensures FreshTokens(s)
  {
    forall i, j | 0 <= i < j < |s.log| ensures TokenAt(s.binding, s.log, i) != TokenAt(s.binding, s.log, j) {
      if TokenAt(s.binding, s.log, i) == TokenAt(s.binding, s.log, j) { TokenNamesPosition(s.binding, s.log, i, j); }
    }
  }

  /** In every run with fresh tokens at most one write under a token lands. Since a commit's write and its re-drive are
      under one token, at most one of ghost and re-drive does. */
  lemma OneLandedWritePerToken(w: World, es: seq<Event>, p: nat, q: nat)
    requires Initial(w) && FreshTokens(Run(w, es).store) && p < |Run(w, es).store.log| && q < |Run(w, es).store.log|
    requires Run(w, es).store.log[p].under.Some? && Run(w, es).store.log[p].under == Run(w, es).store.log[q].under
    ensures p == q
  {
    LandedWritesReplaceTheirToken(w, es, p);
    LandedWritesReplaceTheirToken(w, es, q);
  }

  /** The calls a re-drive of `p` makes from here, all of them answered. */
  function Redrive(w: World, session: Session, p: Pending, salt: nat): (Store, Stage)
    requires w.coordinator.hashes != []
  {
    var (w1, x1) := Serve(w, session, Redriving(p, p.token), Served(salt, false));
    var s1 := Next(Redriving(p, p.token), x1);
    if !s1.Resettling? then (w1.store, s1)
    else (w1.store, Next(s1, Serve(w1, session, s1, Served(salt, false)).1))
  }

  /** In every run with fresh tokens, a re-drive under whose token a write has landed meanwhile, its own ghost included,
      writes nothing. If its bytes are the store's current ones it still goes on to the bump, and otherwise it
      ends in a conflict. */
  lemma RedriveBeatenByGhost(w: World, es: seq<Event>, a: nat, salt: nat, q: nat)
    requires Initial(w) && FreshTokens(Run(w, es).store)
    requires a in Run(w, es).agents && Run(w, es).agents[a].doing.Committing?
    requires Run(w, es).agents[a].doing.stage.Redriving? && Run(w, es).store.present
    requires q < |Run(w, es).store.log| && Run(w, es).store.log[q].under == Some(Run(w, es).agents[a].doing.stage.p.token)
    ensures var r := Run(w, es); var p := r.agents[a].doing.stage.p;
      Redrive(r, r.agents[a].session, p, salt) ==
        (r.store, if Latest(r.store) == p.bytes then Bumping(p, true) else Done(CasVersionConflict))
  {
    var f := Reached(w, es);
    var r := Run(w, es);
    var s := r.agents[a].doing.stage;
    assert StageInv(r.store, f, r.agents[a].since, s);
    LandedWritesReplaceTheirToken(w, es, q);
    assert Current(r.store) != s.p.token;
  }

  // ----- success -----

  /** If this call ends the commit of `a` in success other than "unchanged", its bytes are in the store at a position no
      earlier than the last one when the commit began, and the coordinator's current record is their hash. */
  ghost predicate SuccessIsReal(w: World, a: nat, s: Stage, fate: Fate)
    requires w.coordinator.hashes != [] && a in w.agents && !s.Done?
  {
    var bytes, after := StageBytes(s), AdvanceAgent(w, a, s, fate);
    var t := Next(s, Serve(w, w.agents[a].session, s, fate).1);
    t.Done? && t.outcome.Committed? && !t.outcome.noop ==>
      && (exists p :: w.agents[a].since <= p < |w.store.log| && w.store.log[p].bytes == bytes)
      && after.coordinator.hashes[|after.coordinator.hashes| - 1] == Sha256(bytes)
  }

  lemma SuccessNow(w: World, f: seq<nat>, a: nat, fate: Fate)
    requires Inv(w, f) && a in w.agents && w.agents[a].doing.Committing? && StageInv(w.store, f, w.agents[a].since, w.agents[a].doing.stage)
    ensures SuccessIsReal(w, a, w.agents[a].doing.stage, fate)
  {
    var s := w.agents[a].doing.stage;
    var t := Next(s, Serve(w, w.agents[a].session, s, fate).1);
    if t.Done? && t.outcome.Committed? && !t.outcome.noop {
      assert s.Bumping? || s.Confirming?;
    }
  }

  /** In every run, with repeated contents or not. */
  lemma SuccessMeansBothLegs(w: World, es: seq<Event>, a: nat, fate: Fate)
    requires Initial(w) && a in Run(w, es).agents && Run(w, es).agents[a].doing.Committing?
    ensures !Run(w, es).agents[a].doing.stage.Done?
    ensures SuccessIsReal(Run(w, es), a, Run(w, es).agents[a].doing.stage, fate)
  {
    var f := Reached(w, es);
    assert StageInv(Run(w, es).store, f, Run(w, es).agents[a].since, Run(w, es).agents[a].doing.stage);
    SuccessNow(Run(w, es), f, a, fate);
  }

  // ----- every outcome -----

  /** The store holds a commit's bytes as a write that came after its token. */
  predicate Found(store: Store, p: Pending) {
    && store.present && Latest(store) == p.bytes
    && match store.binding
       case PgRow => p.token.RowVersion? && Current(store) == RowVersion(p.token.n + 1)
       case S3Object => Current(store) != p.token
  }

  /** The re-read reaches the store. */
  predicate Reread(w: World, p: Pending, fate: Fate) { Usable(w.store.binding, p.token) && (fate.Served? || fate.TurnedAway?) }

  /** The token is still the store's current one, and the binding can tell. */
  predicate Unmoved(store: Store, p: Pending) { store.binding.S3Object? && store.present && Current(store) == p.token }

  predicate LostStanding(c: Coordinator, s: Session) { s in c.views && c.views[s].Invalid? }

  /** The bytes a session last saw are not the coordinator's record, and it did not itself just commit. */
  predicate Behind(c: Coordinator, s: Session, seen: Option<Digest>, lag: bool)
    requires c.hashes != []
  {
    !LostStanding(c, s) && Differs(c, seen) && !(s in c.views && lag && c.lastWriter == Some(s))
  }

  /** When the call a commit makes in stage `s` ends it with outcome `o`: on the store, the coordinator's record, the
      session's standing, and what the environment does to the call. */
  ghost predicate Ends(w: World, session: Session, s: Stage, fate: Fate, o: Outcome)
    requires w.coordinator.hashes != [] && !s.Done?
  {
    var c := w.coordinator;
    var answered := fate.Served? || fate.TurnedAway?;
    match o
    case StaleView => s.Checking? && fate.Served? && LostStanding(c, session)
    case ViewWedged =>
      || (s.Checking? && fate.Served? && Behind(c, session, s.observed, fate.lag))
      || (s.Settling? && Reread(w, s.p, fate) && !w.store.present)
    case CasVersionConflict =>
      (match s
       case Writing(p) =>
         && Usable(w.store.binding, p.token) && answered
         && ((fate.TurnedAway? && w.store.binding.S3Object?) || !w.store.present || Current(w.store) != p.token)
       case Settling(p) => Reread(w, p, fate) && w.store.present && !Found(w.store, p) && !Unmoved(w.store, p)
       case Resettling(p) => Reread(w, p, fate) && !Found(w.store, p)
       case Bumping(p, converged) => !converged && (fate.TurnedAway? || (fate.Served? && p.version < Version(c)))
       case Confirming(p, _) => fate.Served? && Sha256(p.bytes) != c.hashes[Version(c) - 1]
       case _ => false)
    case CommitUnconfirmed => fate.LostAnswer? && (s.Bumping? || (s.Redriving? && Usable(w.store.binding, s.under)))
    case Failed =>
      (match s
       case Checking(_, _, _) => !fate.Served?
       case Writing(p) => !Usable(w.store.binding, p.token) || fate.Broken?
       case Redriving(_, under) => !Usable(w.store.binding, under) || fate.Broken?
       case Settling(p) => !Reread(w, p, fate)
       case Resettling(p) => !Reread(w, p, fate)
       case Bumping(p, _) => fate.Broken? || (fate.Served? && p.version > Version(c))
       case Confirming(_, _) => !fate.Served?)
    case Committed(version, converged, noop) =>
      (match s
       case Checking(_, bytes, observed) =>
         && noop && !converged && version == Version(c) && fate.Served?
         && !LostStanding(c, session) && !Behind(c, session, observed, fate.lag) && observed == Some(Sha256(bytes))
       case Bumping(p, found) => !noop && converged == found && fate.Served? && p.version == Version(c) && version == p.version + 1
       case Confirming(p, current) =>
         && !noop && converged && fate.Served? && Sha256(p.bytes) == c.hashes[Version(c) - 1]
         && version == if current.Some? && current.value != 0 then current.value else p.version
       case _ => false)
  }

  lemma CheckEnds(w: World, session: Session, s: Stage, fate: Fate, o: Outcome)
    requires w.coordinator.hashes != [] && (s.Checking? || s.Confirming?)
    ensures Next(s, Serve(w, session, s, fate).1) == Done(o) <==> Ends(w, session, s, fate, o)
  {
  }

  lemma WriteEnds(w: World, session: Session, s: Stage, fate: Fate, o: Outcome)
    requires w.coordinator.hashes != [] && (s.Writing? || s.Redriving?)
    ensures Next(s, Serve(w, session, s, fate).1) == Done(o) <==> Ends(w, session, s, fate, o)
  {
  }

  lemma SettleEnds(w: World, session: Session, s: Stage, fate: Fate, o: Outcome)
    requires w.coordinator.hashes != [] && (s.Settling? || s.Resettling?)
    ensures Next(s, Serve(w, session, s, fate).1) == Done(o) <==> Ends(w, session, s, fate, o)
  {
  }

  lemma BumpEnds(w: World, session: Session, s: Stage, fate: Fate, o: Outcome)
    requires w.coordinator.hashes != [] && s.Bumping?
    ensures Next(s, Serve(w, session, s, fate).1) == Done(o) <==> Ends(w, session, s, fate, o)
  {
  }

  /** At any moment of any run a commit ends with an outcome exactly under that outcome's condition, and what it tells its
      caller to do is the right thing: a stale view is an INVALID session, a wedged one an absent object or a
      coordinator that records other bytes, a conflict a store that moved on or a lost bump. */
  lemma OutcomesAreExact(w: World, es: seq<Event>, a: nat, fate: Fate, o: Outcome)
    requires Initial(w) && a in Run(w, es).agents && Run(w, es).agents[a].doing.Committing?
    ensures var r := Run(w, es); var agent := r.agents[a]; var s := agent.doing.stage;
      var after := Step(r, Advance(a, fate)).agents[a];
      !s.Done? && (after.doing.Idle? && after.outcome == Some(o) <==> Ends(r, agent.session, s, fate, o))
  {
    var f := Reached(w, es);
    var r := Run(w, es);
    var agent := r.agents[a];
    var s := agent.doing.stage;
    assert StageInv(r.store, f, agent.since, s);
    EndsNow(r, agent.session, s, fate, o);
    AdvanceShows(r, a, s, fate);
  }

  lemma EndsNow(w: World, session: Session, s: Stage, fate: Fate, o: Outcome)
    requires w.coordinator.hashes != [] && !s.Done?
    ensures Next(s, Serve(w, session, s, fate).1) == Done(o) <==> Ends(w, session, s, fate, o)
  {
    if s.Checking? || s.Confirming? {
      CheckEnds(w, session, s, fate, o);
    } else if s.Writing? || s.Redriving? {
      WriteEnds(w, session, s, fate, o);
    } else if s.Bumping? {
      BumpEnds(w, session, s, fate, o);
    } else {
      SettleEnds(w, session, s, fate, o);
    }
  }

  lemma AdvanceShows(w: World, a: nat, s: Stage, fate: Fate)
    requires w.coordinator.hashes != [] && a in w.agents && w.agents[a].doing == Committing(s) && !s.Done?
    ensures var t := Next(s, Serve(w, w.agents[a].session, s, fate).1); var r := Step(w, Advance(a, fate));
      && a in r.agents && (r.agents[a].doing.Idle? <==> t.Done?) && (t.Done? ==> r.agents[a].outcome == Some(t.outcome))
      && (!t.Done? ==> r.agents[a] == w.agents[a].(doing := Committing(t)))
  {
  }

  /** A commit that ends in a conflict at its own store write has changed nothing. */
  lemma StoreConflictChangesNothing(w: World, a: nat, p: Pending, fate: Fate)
    requires w.coordinator.hashes != [] && a in w.agents && w.agents[a].doing == Committing(Writing(p))
    requires Step(w, Advance(a, fate)).agents[a].doing.Idle? && Step(w, Advance(a, fate)).agents[a].outcome == Some(CasVersionConflict)
    ensures var r := Step(w, Advance(a, fate)); r.store == w.store && r.coordinator == w.coordinator && r.flight == w.flight && r.late == w.late
  {
  }

  lemma {:induction false} FlightStays(w: World, es: seq<Event>)
    requires w.coordinator.hashes != []
    ensures w.flight <= Run(w, es).flight
    decreases |es|
  {
    if es != [] { FlightStays(Step(w, es[0]), es[1..]); }
  }

  /** A store write whose answer is lost may still land. Whatever happens before it arrives, it lands exactly if the object is
      there and its token is then current; it never touches the record. */
  lemma LostWriteExactly(w: World, a: nat, s: Stage, es: seq<Event>, salt: nat)
    requires w.coordinator.hashes != [] && a in w.agents && w.agents[a].doing == Committing(s) && (s.Writing? || s.Redriving?)
    requires Usable(w.store.binding, if s.Writing? then s.p.token else s.under)
    ensures var token := if s.Writing? then s.p.token else s.under;
      var lost := Step(w, Advance(a, LostAnswer));
      var before := Run(lost, es);
      var after := Step(before, GhostLands(InFlight(token, s.p.bytes), salt));
      && lost.store == w.store && lost.coordinator == w.coordinator && after.coordinator == before.coordinator
      && a in lost.agents && (if s.Writing? then lost.agents[a].doing == Committing(Settling(s.p)) else lost.agents[a].outcome == Some(CommitUnconfirmed))
      && (before.store.present && Current(before.store) == token ==> after.store.log == before.store.log + [Entry(s.p.bytes, salt, Some(token))])
      && (!(before.store.present && Current(before.store) == token) ==> after == before)
  {
    FlightStays(Step(w, Advance(a, LostAnswer)), es);
  }

  /** A read of an object that is gone gives nothing and changes what the agent has seen in nothing. */
  lemma AbsentReadGivesNothing(w: World, a: nat, reacquire: bool, raiseOnStale: bool)
    requires w.coordinator.hashes != [] && a in w.agents && w.agents[a].doing.Idle? && !w.store.present
    ensures var r := Step(w, Load(a, reacquire, raiseOnStale));
      a in r.agents && r.agents[a].doing.Idle? && r.agents[a].observed == w.agents[a].observed && r.coordinator == w.coordinator
  {
  }

  // ----- progress -----

  lemma RedrivesNext(w: World, a: nat, p: Pending, salt: nat)
    requires w.coordinator.hashes != [] && a in w.agents && w.agents[a].doing == Committing(Settling(p)) && Unmoved(w.store, p)
    ensures var r := Step(w, Advance(a, Served(salt, false)));
      r.store == w.store && r.coordinator == w.coordinator && a in r.agents && r.agents[a] == w.agents[a].(doing := Committing(Redriving(p, p.token)))
  {
  }

  lemma WritesNext(w: World, a: nat, s: Stage, salt: nat)
    requires w.coordinator.hashes != [] && a in w.agents && w.agents[a].doing == Committing(s)
    requires s.Writing? || (s.Redriving? && s.under == s.p.token)
    requires w.store.present && Current(w.store) == s.p.token && Usable(w.store.binding, s.p.token)
    ensures var r := Step(w, Advance(a, Served(salt, false)));
      && r.store == w.store.(log := w.store.log + [Entry(s.p.bytes, salt, Some(s.p.token))]) && r.coordinator == w.coordinator
      && a in r.agents && r.agents[a] == w.agents[a].(doing := Committing(Bumping(s.p, false)))
  {
  }

  lemma BumpsNext(w: World, a: nat, p: Pending, converged: bool, salt: nat)
    requires w.coordinator.hashes != [] && a in w.agents && w.agents[a].doing == Committing(Bumping(p, converged)) && p.version == Version(w.coordinator)
    ensures var r := Step(w, Advance(a, Served(salt, false)));
      && r.store == w.store && r.coordinator.hashes == w.coordinator.hashes + [Sha256(p.bytes)]
      && a in r.agents && r.agents[a].doing.Idle? && r.agents[a].outcome == Some(Committed(p.version + 1, converged, false))
      && r.agents[a].observed == Some(Sha256(p.bytes))
  {
  }

  /** The commit of `p` has gone through: one landed write, the next version, and the caller told so. */
  ghost predicate CommittedFrom(w: World, r: World, a: nat, p: Pending, salt: nat) {
    && r.store == w.store.(log := w.store.log + [Entry(p.bytes, salt, Some(p.token))])
    && r.coordinator.hashes == w.coordinator.hashes + [Sha256(p.bytes)]
    && a in r.agents && r.agents[a].outcome == Some(Committed(p.version + 1, false, false))
  }

  /** A put whose answer was lost and which never landed is sent once more and goes through, if nobody has moved the object or
      the record: three answered calls. */
  lemma LostPutIsRedriven(w: World, a: nat, p: Pending, salt: nat)
    requires w.coordinator.hashes != [] && a in w.agents && w.agents[a].doing == Committing(Settling(p))
    requires Unmoved(w.store, p) && p.version == Version(w.coordinator)
    ensures var go := Advance(a, Served(salt, false)); CommittedFrom(w, Run(w, [go] + [go, go]), a, p, salt)
  {
    var go := Advance(a, Served(salt, false));
    RedrivesNext(w, a, p, salt);
    var w1 := Step(w, go);
    WritesNext(w1, a, Redriving(p, p.token), salt);
    BumpsNext(Step(w1, go), a, p, false, salt);
    RunTwo(w1, go, go);
    RunFirst(w, go, [go, go]);
  }

  /** One that did land is found, and recorded without a second write: two answered calls. */
  lemma LandedPutIsRecorded(w: World, a: nat, p: Pending, salt: nat)
    requires w.coordinator.hashes != [] && a in w.agents && w.agents[a].doing == Committing(Settling(p))
    requires Found(w.store, p) && Usable(w.store.binding, p.token) && p.version == Version(w.coordinator)
    ensures var go := Advance(a, Served(salt, false)); var r := Run(w, [go, go]);
      && r.store == w.store && r.coordinator.hashes == w.coordinator.hashes + [Sha256(p.bytes)]
      && a in r.agents && r.agents[a].outcome == Some(Committed(p.version + 1, true, false))
  {
    var go := Advance(a, Served(salt, false));
    RecordsNext(w, a, p, salt);
    BumpsNext(Step(w, go), a, p, true, salt);
    RunTwo(w, go, go);
  }

  lemma RecordsNext(w: World, a: nat, p: Pending, salt: nat)
    requires w.coordinator.hashes != [] && a in w.agents && w.agents[a].doing == Committing(Settling(p))
    requires Found(w.store, p) && Usable(w.store.binding, p.token)
    ensures var r := Step(w, Advance(a, Served(salt, false)));
      r.store == w.store && r.coordinator == w.coordinator && a in r.agents && r.agents[a] == w.agents[a].(doing := Committing(Bumping(p, true)))
  {
  }

  lemma ChecksNext(w: World, a: nat, token: Token, bytes: Bytes, salt: nat)
    requires w.coordinator.hashes != [] && a in w.agents && w.agents[a].doing.Idle? && w.agents[a].observed != Some(Sha256(bytes))
    requires var c := w.coordinator; !LostStanding(c, w.agents[a].session) && !Behind(c, w.agents[a].session, w.agents[a].observed, false)
    ensures var p := Pending(token, bytes, Version(w.coordinator));
      var r := Step(Step(w, Begin(a, token, bytes)), Advance(a, Served(salt, false)));
      && r.store == w.store && r.coordinator.hashes == w.coordinator.hashes
      && a in r.agents && r.agents[a].doing == Committing(Writing(p)) && r.agents[a].session == w.agents[a].session
  {
  }

  /** A commit of other bytes than those last seen, whose session stands and has seen the record, under the store's current
      token, goes through in three answered calls if it is left alone. */
  lemma UndisturbedCommitGoesThrough(w: World, a: nat, token: Token, bytes: Bytes, salt: nat)
    requires w.coordinator.hashes != [] && a in w.agents && w.agents[a].doing.Idle? && w.agents[a].observed != Some(Sha256(bytes))
    requires !LostStanding(w.coordinator, w.agents[a].session) && !Behind(w.coordinator, w.agents[a].session, w.agents[a].observed, false)
    requires w.store.present && Current(w.store) == token && Usable(w.store.binding, token)
    ensures var go := Advance(a, Served(salt, false));
      CommittedFrom(w, Run(w, [Begin(a, token, bytes), go] + [go, go]), a, Pending(token, bytes, Version(w.coordinator)), salt)
  {
    var go, p := Advance(a, Served(salt, false)), Pending(token, bytes, Version(w.coordinator));
    ChecksNext(w, a, token, bytes, salt);
    RunTwo(w, Begin(a, token, bytes), go);
    var w2 := Run(w, [Begin(a, token, bytes), go]);
    WritesNext(w2, a, Writing(p), salt);
    BumpsNext(Step(w2, go), a, p, false, salt);
    RunTwo(w2, go, go);
    RunThen(w, [Begin(a, token, bytes), go], [go, go]);
  }

  // ----- losing and regaining one's standing -----

  /** In this step a bump by session `s` takes effect. */
  predicate Wins(w: World, e: Event, s: Session) {
    match e
    case Advance(a, fate) =>
      && a in w.agents && w.agents[a].session == s && w.agents[a].doing.Committing? && w.agents[a].doing.stage.Bumping?
      && fate.Served? && w.agents[a].doing.stage.p.version == Version(w.coordinator)
    case BumpLands(b) => b in w.late && b.session == s && b.version == Version(w.coordinator)
    case _ => false
  }

  predicate WinsDuring(w: World, es: seq<Event>, s: Session)
    requires w.coordinator.hashes != []
    decreases |es|
  {
    es != [] && (Wins(w, es[0], s) || WinsDuring(Step(w, es[0]), es[1..], s))
  }

  /** Every session the coordinator knows loses its standing when another one's bump takes effect. */
  lemma BumpTakesStanding(w: World, e: Event, t: Session, s: Session)
    requires w.coordinator.hashes != [] && Wins(w, e, t) && s in w.coordinator.views && s != t
    ensures LostStanding(Step(w, e).coordinator, s) && Version(Step(w, e).coordinator) == Version(w.coordinator) + 1
  {
  }

  lemma StepKeepsLoss(w: World, e: Event, s: Session)
    requires w.coordinator.hashes != [] && LostStanding(w.coordinator, s) && !Wins(w, e, s)
    ensures LostStanding(Step(w, e).coordinator, s)
  {
  }

  lemma {:induction false} LossIsSticky(w: World, es: seq<Event>, s: Session)
    requires w.coordinator.hashes != [] && LostStanding(w.coordinator, s) && !WinsDuring(w, es, s)
    ensures LostStanding(Run(w, es).coordinator, s)
    decreases |es|
  {
    if es != [] {
      StepKeepsLoss(w, es[0], s);
      LossIsSticky(Step(w, es[0]), es[1..], s);
    }
  }

  /** Nobody commits over a commit it has not seen: once another session's bump has taken effect, whatever happens next, a
      commit of a session the coordinator knew ends in a stale view at its check, unless a bump of its own took
      effect meanwhile or its agent has taken a new identity. */
  lemma PeersMustReacquire(w: World, e: Event, t: Session, es: seq<Event>, a: nat, fate: Fate)
    requires w.coordinator.hashes != [] && Wins(w, e, t)
    requires var r := Run(Step(w, e), es);
      && a in r.agents && r.agents[a].session in w.coordinator.views && r.agents[a].session != t
      && !WinsDuring(Step(w, e), es, r.agents[a].session) && r.agents[a].doing.Committing? && r.agents[a].doing.stage.Checking?
    requires fate.Served?
    ensures var r := Step(Run(Step(w, e), es), Advance(a, fate));
      && a in r.agents && r.agents[a].doing.Idle? && r.agents[a].outcome == Some(StaleView) && r.store == Run(Step(w, e), es).store
  {
    var r := Run(Step(w, e), es);
    var s := r.agents[a].session;
    BumpTakesStanding(w, e, t, s);
    LossIsSticky(Step(w, e), es, s);
    StaleNow(r, a, fate);
  }

  lemma StaleNow(w: World, a: nat, fate: Fate)
    requires w.coordinator.hashes != [] && a in w.agents && w.agents[a].doing.Committing? && w.agents[a].doing.stage.Checking?
    requires LostStanding(w.coordinator, w.agents[a].session) && fate.Served?
    ensures var r := Step(w, Advance(a, fate));
      a in r.agents && r.agents[a].doing.Idle? && r.agents[a].outcome == Some(StaleView) && r.store == w.store
  {
  }

  /** The coordinator knows this identity, or may still hear of it. */
  ghost predicate Known(w: World, s: Session) { s in w.coordinator.views || exists b :: b in w.late && b.session == s }

  /** Identities are only known once minted. */
  ghost predicate MintInv(w: World, a: nat) {
    a in w.agents && w.agents[a].session.agent == a && forall s :: Known(w, s) && s.agent == a ==> s.mint <= w.agents[a].session.mint
  }

  ghost predicate MintsInv(w: World) { forall a :: a in w.agents ==> MintInv(w, a) }

  /** A step makes known at most the session of the agent it is a step of. */
  lemma StepKnows(w: World, e: Event, s: Session)
    requires w.coordinator.hashes != [] && Known(Step(w, e), s)
    ensures Known(w, s) || ((e.Advance? || e.Register?) && e.agent in w.agents && w.agents[e.agent].session == s)
  {
    if s !in Step(w, e).coordinator.views {
      var b :| b in Step(w, e).late && b.session == s;
      assert b in w.late || (e.Advance? && e.agent in w.agents && w.agents[e.agent].session == s);
    }
  }

  lemma StepMints(w: World, e: Event)
    requires w.coordinator.hashes != [] && MintsInv(w)
    ensures MintsInv(Step(w, e))
  {
    forall a | a in Step(w, e).agents ensures MintInv(Step(w, e), a) {
      SessionsMove(w, e, a);
      assert MintInv(w, a);
      forall s | Known(Step(w, e), s) && s.agent == a ensures s.mint <= Step(w, e).agents[a].session.mint {
        StepKnows(w, e, s);
      }
    }
  }

  lemma SessionsMove(w: World, e: Event, a: nat)
    requires w.coordinator.hashes != [] && a in Step(w, e).agents
    ensures a in w.agents
    ensures Step(w, e).agents[a].session == w.agents[a].session || Step(w, e).agents[a].session == Session(a, w.agents[a].session.mint + 1)
  {
  }

  lemma {:induction false} RunMints(w: World, es: seq<Event>)
    requires w.coordinator.hashes != [] && MintsInv(w)
    ensures MintsInv(Run(w, es))
    decreases |es|
  {
    if es != [] {
      StepMints(w, es[0]);
      RunMints(Step(w, es[0]), es[1..]);
    }
  }

  lemma ReacquiresClean(w: World, a: nat)
    requires w.coordinator.hashes != [] && MintInv(w, a) && w.agents[a].doing.Idle? && w.store.present
    requires w.coordinator.hashes[Version(w.coordinator) - 1] == Sha256(Latest(w.store))
    ensures var r := Run(w, [Load(a, true, false), Register(a, ANSWERED)]);
      && r.store == w.store && r.coordinator.hashes == w.coordinator.hashes && a in r.agents && r.agents[a].doing.Idle?
      && r.agents[a].observed == Some(Sha256(Latest(w.store)))
      && !LostStanding(r.coordinator, r.agents[a].session) && !Behind(r.coordinator, r.agents[a].session, r.agents[a].observed, false)
  {
    var s := Session(a, w.agents[a].session.mint + 1);
    assert s !in w.coordinator.views by {
      assert s in w.coordinator.views ==> Known(w, s);
    }
    RunTwo(w, Load(a, true, false), Register(a, ANSWERED));
    assert Step(w, Load(a, true, false)).agents[a].doing == Loaded(Latest(w.store), Current(w.store), false);
  }

  /** And re-acquiring is enough: in every run, whatever standing an agent has lost, once the coordinator records what the store
      holds, a re-acquisition and a commit of other bytes go through if they are left alone. */
  lemma ReacquiredCommitGoesThrough(w: World, es: seq<Event>, a: nat, bytes: Bytes, salt: nat)
    requires w.coordinator.hashes != [] && MintsInv(w)
    requires var r := Run(w, es);
      && a in r.agents && r.agents[a].doing.Idle? && r.store.present && Usable(r.store.binding, Current(r.store)) && bytes != Latest(r.store)
      && r.coordinator.hashes[Version(r.coordinator) - 1] == Sha256(Latest(r.store))
    ensures var r := Run(w, es); var go, t := Advance(a, Served(salt, false)), Current(r.store);
      CommittedFrom(r, Run(r, [Load(a, true, false), Register(a, ANSWERED)] + ([Begin(a, t, bytes), go] + [go, go])), a,
                    Pending(t, bytes, Version(r.coordinator)), salt)
  {
    var r := Run(w, es);
    var go, t := Advance(a, Served(salt, false)), Current(r.store);
    RunMints(w, es);
    ReacquiresClean(r, a);
    UndisturbedCommitGoesThrough(Run(r, [Load(a, true, false), Register(a, ANSWERED)]), a, t, bytes, salt);
    RunThen(r, [Load(a, true, false), Register(a, ANSWERED)], [Begin(a, t, bytes), go] + [go, go]);
  }

  /** The calls agent `a` makes during `es` until the commit it is in is over. */
  function Calls(w: World, es: seq<Event>, a: nat): seq<Exchange>
    requires w.coordinator.hashes != []
    decreases |es|
  {
    if es == [] || a !in w.agents || !w.agents[a].doing.Committing? then []
    else
      var s := w.agents[a].doing.stage;
      var now := if es[0].Advance? && es[0].agent == a && !s.Done? then [Serve(w, w.agents[a].session, s, es[0].fate).1] else [];
      now + Calls(Step(w, es[0]), es[1..], a)
  }

  /** Only its own calls move a commit. */
  lemma OthersLeaveCommitAlone(w: World, e: Event, a: nat)
    requires w.coordinator.hashes != [] && a in w.agents && w.agents[a].doing.Committing?
    requires !(e.Advance? && e.agent == a)
    ensures a in Step(w, e).agents && Step(w, e).agents[a] == w.agents[a]
  {
  }

  lemma OwnCallMovesCommit(w: World, a: nat, fate: Fate)
    requires w.coordinator.hashes != [] && a in w.agents && w.agents[a].doing.Committing? && !w.agents[a].doing.stage.Done?
    ensures var s := w.agents[a].doing.stage;
      var t := Next(s, Serve(w, w.agents[a].session, s, fate).1);
      var after := Step(w, Advance(a, fate));
      a in after.agents && after.agents[a].doing == if t.Done? then Idle else Committing(t)
  {
  }

  /** However the calls of other agents interleave, the calls of one commit are a conforming sequence,
      so the budgets proved for `CommitProtocol` hold inside every run. */
  lemma {:induction false} CommitsConform(w: World, es: seq<Event>, a: nat) returns (t: Stage)
    requires w.coordinator.hashes != [] && a in w.agents && w.agents[a].doing.Committing?
    ensures Conforms(w.agents[a].doing.stage, Calls(w, es, a), t)
    ensures StoreWrites(Calls(w, es, a)) <= 2 && Bumps(Calls(w, es, a)) <= 1 && |Calls(w, es, a)| <= 7
    decreases |es|
  {
    var s := w.agents[a].doing.stage;
    if es == [] {
      t := s;
    } else {
      var w', rest := Step(w, es[0]), es[1..];
      var later := Calls(w', rest, a);
      if es[0].Advance? && es[0].agent == a && !s.Done? {
        OwnCallMovesCommit(w, a, es[0].fate);
        var x := Serve(w, w.agents[a].session, s, es[0].fate).1;
        t := Next(s, x);
        if !t.Done? {
          t := CommitsConform(w', rest, a);
        }
        ConformsStep(s, x, later, t);
        assert Calls(w, es, a) == [x] + later;
      } else {
        if !(es[0].Advance? && es[0].agent == a) {
          OthersLeaveCommitAlone(w, es[0], a);
        }
        t := CommitsConform(w', rest, a);
        assert Calls(w, es, a) == [] + later == later;
      }
    }
    CommitBudget(s, Calls(w, es, a), t);
  }

  /** The store never reports a moved token with RE_DRIVE. */
  lemma {:induction false} CallsAreHonest(w: World, es: seq<Event>, a: nat)
    requires w.coordinator.hashes != []
    ensures forall x :: x in Calls(w, es, a) ==> HonestRedrive(x)
    decreases |es|
  {
    if es != [] && a in w.agents && w.agents[a].doing.Committing? {
      CallsAreHonest(Step(w, es[0]), es[1..], a);
    }
  }

  /** In every run, with repeated contents or not: each store write a commit makes, the re-drive included, carries
      the token and bytes its caller passed, each bump records their hash and comes after the store vouched
      for them, and success other than "unchanged" has both legs behind it. */
  lemma CommitsKeepTheirWord(w: World, es: seq<Event>, a: nat, token: Token, bytes: Bytes) returns (t: Stage)
    requires w.coordinator.hashes != [] && a in w.agents && w.agents[a].doing.Idle?
    ensures var begun := Step(w, Begin(a, token, bytes)); var calls := Calls(begun, es, a);
      && Conforms(begun.agents[a].doing.stage, calls, t)
      && (forall x :: x in calls && x.AskCas? ==> x.expected == token && x.bytes == bytes)
      && (forall x :: x in calls && x.AskBump? ==> x.recorded == Sha256(bytes))
      && (forall i :: 0 <= i < |calls| && calls[i].AskBump? ==> exists x :: x in calls[..i] && Vouches(x))
      && (t.Done? && t.outcome.Committed? && !t.outcome.noop ==> exists x :: x in calls && Vouches(x))
  {
    var begun := Step(w, Begin(a, token, bytes));
    var s, calls := begun.agents[a].doing.stage, Calls(begun, es, a);
    t := CommitsConform(begun, es, a);
    CallsAreHonest(begun, es, a);
    WritesUnderCallersToken(s, calls, t, token, bytes);
    BumpOnlyAfterStore(s, [], calls, t);
    assert [] + calls == calls && forall i :: 0 <= i < |calls| ==> [] + calls[..i] == calls[..i];
  }

  // ----- how a write is recorded twice -----

  lemma {:induction false} RunThen(w: World, xs: seq<Event>, ys: seq<Event>)
    requires w.coordinator.hashes != []
    ensures Run(w, xs + ys) == Run(Run(w, xs), ys)
    decreases |xs|
  {
    if xs == [] {
      assert xs + ys == ys;
    } else {
      assert (xs + ys)[1..] == xs[1..] + ys;
      RunThen(Step(w, xs[0]), xs[1..], ys);
    }
  }

  const ANSWERED := Served(0, false)

  /** The agent is idle and its view stands at a clean read of the store. */
  predicate CleanReader(w: World, a: nat) {
    && a in w.agents && w.agents[a].doing.Idle? && w.agents[a].observed == Some(Sha256(Latest(w.store)))
    && w.agents[a].session in w.coordinator.views && w.coordinator.views[w.agents[a].session].Shared?
    && w.coordinator.hashes != [] && w.coordinator.hashes[Version(w.coordinator) - 1] == Sha256(Latest(w.store))
    && w.store.present && w.store.binding.S3Object?
  }

  lemma RunFirst(w: World, e: Event, es: seq<Event>)
    requires w.coordinator.hashes != []
    ensures Run(w, [e] + es) == Run(Step(w, e), es)
  {
    assert ([e] + es)[1..] == es;
  }

  lemma RunTwo(w: World, e: Event, f: Event)
    requires w.coordinator.hashes != []
    ensures Run(w, [e, f]) == Step(Step(w, e), f)
  {
    RunFirst(w, e, [f]);
    RunFirst(Step(w, e), f, []);
    assert [e, f] == [e] + [f] && [f] == [f] + [];
  }

  /** A newcomer's read of a store the coordinator is up to date with. */
  lemma ReadsClean(w: World, a: nat)
    requires a in w.agents && w.agents[a].doing.Idle? && w.agents[a].session !in w.coordinator.views
    requires w.coordinator.hashes != [] && w.coordinator.hashes[Version(w.coordinator) - 1] == Sha256(Latest(w.store))
    requires w.store.present && w.store.binding.S3Object?
    ensures var r := Run(w, [Load(a, false, false), Register(a, ANSWERED)]);
      && CleanReader(r, a) && r.store == w.store && r.coordinator.hashes == w.coordinator.hashes
      && r.agents[a].session == w.agents[a].session
  {
    RunTwo(w, Load(a, false, false), Register(a, ANSWERED));
    assert Step(w, Load(a, false, false)).agents[a].doing == Loaded(Latest(w.store), Current(w.store), false);
  }

  /** A standing session's commit passes its check on matching bytes, or right after its own commit. */
  lemma PassesCheck(w: World, a: nat, t: Token, bytes: Bytes, lag: bool)
    requires a in w.agents && w.agents[a].doing.Idle? && w.agents[a].observed != Some(Sha256(bytes))
    requires w.agents[a].session in w.coordinator.views && w.coordinator.views[w.agents[a].session].Shared?
    requires w.coordinator.hashes != []
    requires Differs(w.coordinator, w.agents[a].observed) ==> lag && w.coordinator.lastWriter == Some(w.agents[a].session)
    ensures var r := Run(w, [Begin(a, t, bytes), Advance(a, Served(0, lag))]);
      && r.store == w.store && r.coordinator == w.coordinator && r.late == w.late && a in r.agents
      && r.agents[a] == w.agents[a].(doing := Committing(Writing(Pending(t, bytes, Version(w.coordinator)))), since := |w.store.log| - 1)
  {
    RunTwo(w, Begin(a, t, bytes), Advance(a, Served(0, lag)));
  }

  /** Its commit lands in the store, but the answer to the bump is lost. */
  lemma LandsUnconfirmed(w: World, a: nat, bytes: Bytes)
    requires CleanReader(w, a) && bytes != Latest(w.store)
    ensures var t, go := Current(w.store), Advance(a, ANSWERED);
      var r := Run(w, [Begin(a, t, bytes), go] + [go, Advance(a, LostAnswer)]);
      && r.store == w.store.(log := w.store.log + [Entry(bytes, 0, Some(t))])
      && r.coordinator == w.coordinator && LateBump(w.agents[a].session, Version(w.coordinator), bytes) in r.late
      && a in r.agents && r.agents[a] == w.agents[a].(outcome := Some(CommitUnconfirmed), since := |w.store.log| - 1)
  {
    var t, go := Current(w.store), Advance(a, ANSWERED);
    var p := Pending(t, bytes, Version(w.coordinator));
    RunThen(w, [Begin(a, t, bytes), go], [go, Advance(a, LostAnswer)]);
    PassesCheck(w, a, t, bytes, false);
    WritesThenLosesBump(Run(w, [Begin(a, t, bytes), go]), a, p);
  }

  lemma WritesThenLosesBump(w: World, a: nat, p: Pending)
    requires w.coordinator.hashes != [] && w.store.present && w.store.binding.S3Object? && Current(w.store) == p.token
    requires a in w.agents && w.agents[a].doing == Committing(Writing(p))
    ensures var r := Run(w, [Advance(a, ANSWERED), Advance(a, LostAnswer)]);
      && r.store == w.store.(log := w.store.log + [Entry(p.bytes, 0, Some(p.token))])
      && r.coordinator == w.coordinator && LateBump(w.agents[a].session, p.version, p.bytes) in r.late
      && a in r.agents && r.agents[a] == w.agents[a].(doing := Idle, outcome := Some(CommitUnconfirmed))
  {
    RunTwo(w, Advance(a, ANSWERED), Advance(a, LostAnswer));
    WritesNext(w, a, Writing(p), 0);
    LosesBump(Step(w, Advance(a, ANSWERED)), a, p);
  }

  lemma LosesBump(w: World, a: nat, p: Pending)
    requires w.coordinator.hashes != [] && a in w.agents && w.agents[a].doing == Committing(Bumping(p, false))
    ensures var r := Step(w, Advance(a, LostAnswer));
      && r.store == w.store && r.coordinator == w.coordinator && LateBump(w.agents[a].session, p.version, p.bytes) in r.late
      && a in r.agents && r.agents[a] == w.agents[a].(doing := Idle, outcome := Some(CommitUnconfirmed))
  {
  }

  lemma BumpTakesEffect(w: World, b: LateBump)
    requires w.coordinator.hashes != [] && b in w.late && b.version == Version(w.coordinator)
    ensures var r := Run(w, [BumpLands(b)]);
      && r.store == w.store && r.agents == w.agents && r.coordinator.hashes == w.coordinator.hashes + [Sha256(b.bytes)]
      && r.coordinator.lastWriter == Some(b.session)
      && b.session in r.coordinator.views && r.coordinator.views[b.session].Shared?
  {
    RunFirst(w, BumpLands(b), []);
    assert [BumpLands(b)] == [BumpLands(b)] + [];
  }

  /** Once that bump has taken effect, the same commit sent again inside the recent-own-commit window, with its
      store answer lost, finds its own landed bytes, converges and is recorded a second time. */
  lemma RetryConverges(w: World, a: nat, t: Token, bytes: Bytes)
    requires a in w.agents && w.agents[a].doing.Idle? && w.agents[a].observed != Some(Sha256(bytes))
    requires w.agents[a].session in w.coordinator.views && w.coordinator.views[w.agents[a].session].Shared?
    requires w.coordinator.hashes != [] && w.coordinator.lastWriter == Some(w.agents[a].session)
    requires w.store.present && w.store.binding.S3Object? && Current(w.store) != t && Latest(w.store) == bytes
    ensures var r := Run(w, [Begin(a, t, bytes), Advance(a, Served(0, true))] + [Advance(a, LostAnswer), Advance(a, ANSWERED), Advance(a, ANSWERED)]);
      r.store == w.store && r.coordinator.hashes == w.coordinator.hashes + [Sha256(bytes)]
  {
    var begin, check := Begin(a, t, bytes), Advance(a, Served(0, true));
    var rest := [Advance(a, LostAnswer), Advance(a, ANSWERED), Advance(a, ANSWERED)];
    var p := Pending(t, bytes, Version(w.coordinator));
    RunThen(w, [begin, check], rest);
    PassesCheck(w, a, t, bytes, true);
    LostThenConverges(Run(w, [begin, check]), a, p);
  }

  lemma LostThenConverges(w: World, a: nat, p: Pending)
    requires w.coordinator.hashes != [] && w.store.present && w.store.binding.S3Object?
    requires a in w.agents && w.agents[a].doing == Committing(Writing(p))
    requires Current(w.store) != p.token && Latest(w.store) == p.bytes && p.version == Version(w.coordinator)
    ensures var r := Run(w, [Advance(a, LostAnswer), Advance(a, ANSWERED), Advance(a, ANSWERED)]);
      r.store == w.store && r.coordinator.hashes == w.coordinator.hashes + [Sha256(p.bytes)]
  {
    var go, lost := Advance(a, ANSWERED), Advance(a, LostAnswer);
    var w1 := Step(w, lost);
    assert w1.agents[a].doing == Committing(Settling(p)) && w1.store == w.store && w1.coordinator == w.coordinator;
    LandedPutIsRecorded(w1, a, p, 0);
    RunFirst(w, lost, [go, go]);
    assert [lost] + [go, go] == [lost, go, go];
  }

  /** A coordinator whose records embed in the history never counts more versions than landed writes. */
  lemma EmbeddingFits(f: seq<nat>, hashes: seq<Digest>, log: Log)
    requires Embeds(f, hashes, log)
    ensures |hashes| <= |log|
  {
    for k := 0 to |f|
      invariant forall i :: 0 <= i < k ==> f[i] >= i
    {
      assert k > 0 ==> f[k - 1] < f[k];
    }
    assert |f| > 0 ==> f[|f| - 1] < |log|;
  }

  /** One agent, using the token of its latest read throughout: it reads and commits, the bump's answer is lost but
      the bump takes effect, and it sends the same commit again. The bytes landed once and are recorded twice. */
  lemma RetryIsRecordedTwice() returns (w: World, es: seq<Event>)
    ensures Initial(w) && Twice(Run(w, es).coordinator.hashes)
    ensures forall f :: !Embeds(f, Run(w, es).coordinator.hashes, Run(w, es).store.log)
  {
    var first, second: Bytes := [0], [1];
    var t, go := ETag(first, 0), Advance(0, ANSWERED);
    var session := Session(0, 0);
    w := World(Store(S3Object, [Entry(first, 0, None)], true), {}, Coordinator([Sha256(first)], map[], None), {},
               map[0 := Agent(session, None, Idle, None, 0)]);
    var reading := [Load(0, false, false), Register(0, ANSWERED)];
    var sending := [Begin(0, t, second), go] + [go, Advance(0, LostAnswer)];
    var landing := [BumpLands(LateBump(session, 1, second))];
    var again := [Begin(0, t, second), Advance(0, Served(0, true))] + [Advance(0, LostAnswer), go, go];
    es := reading + (sending + (landing + again));
    ReadsClean(w, 0);
    var w1 := Run(w, reading);
    LandsUnconfirmed(w1, 0, second);
    var w2 := Run(w1, sending);
    var w3 := Run(w2, landing);
    BumpTakesEffect(w2, LateBump(session, 1, second));
    RetryConverges(w3, 0, t, second);
    RunThen(w2, landing, again);
    RunThen(w1, sending, landing + again);
    RunThen(w, reading, sending + (landing + again));
    var end := Run(w, es);
    assert |end.coordinator.hashes| == 3 && |end.store.log| == 2;
    assert end.coordinator.hashes[1] == end.coordinator.hashes[2];
    forall f ensures !Embeds(f, end.coordinator.hashes, end.store.log) {
      if Embeds(f, end.coordinator.hashes, end.store.log) {
        EmbeddingFits(f, end.coordinator.hashes, end.store.log);
      }
    }
  }
}
