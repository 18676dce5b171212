/** Any number of agent runtimes on one artifact, at the grain of single coordinator calls and single dictionary
    accesses. A fetch or commit is a call, an entry write and a body write; a cached read looks at the entry
    and then at the body; a broadcast writes the entry and then the body. Broadcasts and invalidations arrive
    late, repeatedly, in any order, and between any two of these steps. */
module RuntimeSystem {
  import opened Foundations
  import opened Grants
  import opened AgentCache
  import opened Registry
  import opened AgentRuntime

  type Make = Option<Content> -> Content

  /** Where an agent is inside a write or an optimistic write. `made` counts the posts made so far. */
  datatype Op =
    | Idle
    | Writing(content: Content)
    | Holding(content: Content)
    | Casing(id: nat, make: Make, made: nat)
    | Deriving(id: nat, make: Make, made: nat, expected: int, base: Option<Content>)
    | Posting(id: nat, make: Make, made: nat, expected: int, body: Content)
    | Refetching(id: nat, make: Make, made: nat, current: int)

  /** What the agent's own thread has still to do to its dictionaries. A reader remembers in `goes` the body that goes
      with the entry it saw. */
  datatype Section =
    | Closed
    | PutEntry(entry: Entry, body: Content)
    | PutBody(body: Content)
    | Touch(entry: Entry, goes: Option<Content>)
    | ReadBody(version: int, goes: Option<Content>)

  /** Who wrote the cache entry last: the own thread, a broadcast, or an invalidation. */
  datatype Writer = Self | Push | Lower

  /** `incoming` is the body of a broadcast whose entry is written and whose body is not; `seen` are the versions the agent has
      read or committed, in order. */
  datatype Node = Node(
    strategy: Strategy,
    retries: nat,
    local: Local,
    writer: Writer,
    op: Op,
    section: Section,
    incoming: Option<Content>,
    seen: seq<Seen>)

  /** The body that goes with the cache entry: the one a broadcast is about to write, or else the one there is. */
  function Going(n: Node): Option<Content> { if n.incoming.Some? then n.incoming else n.local.content }

  /** How each version came about. */
  datatype Origin = Registered | Plain(agent: Agent) | Derived(id: nat, make: Make)

  /** `budgets[id]` is the number of retries the optimistic write `id` was allowed. */
  datatype World = World(record: Record, nodes: map<Agent, Node>, origins: seq<Origin>, results: map<nat, CasResult>, budgets: seq<nat>)

  datatype Event =
    | Read(now: int)
    | BeginWrite(content: Content, now: int)
    | AcquireWrite
    | CommitWrite(now: int)
    | BeginCas(make: Make, now: int)
    | Propose(now: int)
    | Derive
    | Post(now: int)
    | Refetch(now: int)
    | Proceed                                    // the next step of the own thread's section
    | DeliverUpdate(version: int, content: Content, writer: Option<Agent>, now: int)
    | LandBody                                   // the second write of the broadcast
    | Revoke(newVersion: int, issuer: Agent)     // the registry's half of an invalidation
    | LowerEntry(newVersion: int, tick: int, base: Option<Entry>)   // the cache's half, on an entry it read at any time
    | RecoverCache(bound: Option<int>)
    | Sweep

  /** Messages were minted from commits: never ahead of the history, and current only with the current body. */
  predicate Minted(history: seq<Content>, e: Event) {
    match e
    case DeliverUpdate(version, content, _, _) =>
      version <= |history| && (version == |history| > 0 ==> content == history[version - 1])
    case Revoke(newVersion, _) => newVersion <= |history|
    case LowerEntry(newVersion, _, _) => newVersion <= |history|
    case _ => true
  }

  // ----- one agent's step -----

  /** What one event at one agent does: the record and the agent afterwards, the version it committed if any,
      the outcome of its optimistic write if that ended, and whether a new one began. */
  datatype Effect = Effect(record: Record, node: Node, origin: Option<Origin>, result: Option<CasResult>, begins: bool)

  function Quiet(r: Record, n: Node): Effect { Effect(r, n, None, None, false) }

  function Latest(history: seq<Content>): Seen
    requires history != []
  {
    Seen(|history|, history[|history| - 1])
  }

  /** A broadcast in progress holds the registry's lock, so the agent makes no call meanwhile. */
  predicate CanCall(n: Node) { n.section.Closed? && n.incoming.None? }

  function Fetched(r: Record, a: Agent, n: Node, now: int): Effect
    requires r.history != []
  {
    var grant := Fetch(r, a).1;
    Quiet(Fetch(r, a).0, n.(section := PutEntry(OnFetch(n.strategy, |r.history|, grant, now), r.history[|r.history| - 1])))
  }

  function DoRead(r: Record, a: Agent, n: Node, now: int): Effect
    requires r.history != []
  {
    if NeedsFetch(n.local, n.strategy, now) then
      if !CanCall(n) then Quiet(r, n)
      else var f := Fetched(r, a, n, now); f.(node := f.node.(seen := n.seen + [Latest(r.history)]))
    else Quiet(r, n.(section := Touch(OnRead(n.strategy, n.local.entry.value, now), Going(n))))
  }

  predicate CanBegin(n: Node, now: int) { CanCall(n) || (n.section.Closed? && !NeedsFetch(n.local, n.strategy, now)) }

  /** The optional fetch with which both kinds of write begin. */
  function DoBegin(r: Record, a: Agent, n: Node, now: int, op: Op): Effect
    requires r.history != []
  {
    var f := if NeedsFetch(n.local, n.strategy, now) then Fetched(r, a, n, now) else Quiet(r, n);
    f.(node := f.node.(op := op))
  }

  function DoCommit(r: Record, a: Agent, n: Node, now: int): Effect
    requires n.op.Holding? && r.history != []
  {
    var (r1, answer) := Commit(r, a, n.op.content);
    if answer.Committed? then
      Effect(r1, n.(op := Idle, seen := n.seen + [Latest(r1.history)],
                    section := PutEntry(OnFetch(n.strategy, |r1.history|, Modified, now), n.op.content)), Some(Plain(a)), None, false)
    else Quiet(r1, n.(op := Idle))
  }

  function DoPropose(r: Record, a: Agent, n: Node, now: int): Effect
    requires n.op.Casing? && r.history != []
  {
    if n.local.entry.Some? then Quiet(r, n.(op := Deriving(n.op.id, n.op.make, n.op.made, n.local.entry.value.version, Going(n))))
    else if CanCall(n) then Fetched(r, a, n, now)
    else Quiet(r, n)
  }

  function DoPost(r: Record, a: Agent, n: Node, now: int): Effect
    requires n.op.Posting? && r.history != []
  {
    var (r1, answer) := CommitCas(r, a, n.op.expected, n.op.body);
    match answer
    case CasWon =>
      Effect(r1, n.(op := Idle, seen := n.seen + [Latest(r1.history)],
                    section := PutEntry(OnFetch(n.strategy, |r1.history|, SharedState, now), n.op.body)),
             Some(Derived(n.op.id, n.op.make)), Some(Won(|r1.history|)), false)
    case CasLost(_, current) => Quiet(r, n.(op := Refetching(n.op.id, n.op.make, n.op.made + 1, current)))
    case CasRefused(refusal) => Effect(r, n.(op := Idle), None, Some(Failed(refusal)), false)
  }

  function DoRefetch(r: Record, a: Agent, n: Node, now: int): Effect
    requires n.op.Refetching? && r.history != []
  {
    var f := Fetched(r, a, n, now);
    if n.op.made < n.retries + 1 then f.(node := f.node.(op := Casing(n.op.id, n.op.make, n.op.made)))
    else f.(node := f.node.(op := Idle), result := Some(Exhausted(n.op.made, n.op.current)))
  }

  function DoProceed(n: Node): Node {
    match n.section
    case Closed => n
    case PutEntry(entry, body) => n.(local := n.local.(entry := Some(entry)), writer := Self, section := PutBody(body))
    case PutBody(body) => n.(local := n.local.(content := Some(body)), section := Closed)
    case Touch(entry, goes) => n.(local := n.local.(entry := Some(entry)), writer := Self, section := ReadBody(entry.version, goes))
    case ReadBody(version, _) =>
      n.(section := Closed, seen := n.seen + [Seen(version, if n.local.content.Some? then n.local.content.value else [])])
  }

  function DoDeliver(r: Record, a: Agent, n: Node, version: int, content: Content, writer: Option<Agent>, now: int): Effect {
    if n.incoming.Some? then Quiet(r, n)
    else
      var lands := UpdateLands(r, a, version);
      Quiet(Updated(r, a, version, writer),
            if lands then n.(local := n.local.(entry := Some(OnFetch(n.strategy, version, SharedState, now))), writer := Push, incoming := Some(content)) else n)
  }

  /** Events the agent's own thread starts; they wait until its section is closed. */
  predicate Own(e: Event) {
    e.Read? || e.BeginWrite? || e.AcquireWrite? || e.CommitWrite? || e.BeginCas? || e.Propose? || e.Derive? || e.Post? || e.Refetch?
  }

  function ActOwn(r: Record, a: Agent, n: Node, e: Event, nextId: nat): Effect
    requires r.history != [] && Own(e)
  {
    match e
    case Read(now) => if n.op.Idle? then DoRead(r, a, n, now) else Quiet(r, n)
    case BeginWrite(content, now) => if n.op.Idle? && CanBegin(n, now) then DoBegin(r, a, n, now, Writing(content)) else Quiet(r, n)
    case AcquireWrite =>
      if n.op.Writing? && CanCall(n) then Quiet(Acquire(r, a), n.(op := Holding(n.op.content))) else Quiet(r, n)
    case CommitWrite(now) => if n.op.Holding? && CanCall(n) then DoCommit(r, a, n, now) else Quiet(r, n)
    case BeginCas(make, now) =>
      if n.op.Idle? && CanBegin(n, now) then DoBegin(r, a, n, now, Casing(nextId, make, 0)).(begins := true) else Quiet(r, n)
    case Propose(now) => if n.op.Casing? then DoPropose(r, a, n, now) else Quiet(r, n)
    case Derive =>
      if n.op.Deriving? then Quiet(r, n.(op := Posting(n.op.id, n.op.make, n.op.made, n.op.expected, n.op.make(n.local.content))))
      else Quiet(r, n)
    case Post(now) => if n.op.Posting? && CanCall(n) then DoPost(r, a, n, now) else Quiet(r, n)
    case Refetch(now) => if n.op.Refetching? && CanCall(n) then DoRefetch(r, a, n, now) else Quiet(r, n)
  }

  function Act(r: Record, a: Agent, n: Node, e: Event, nextId: nat): Effect
    requires r.history != []
  {
    if Own(e) then (if n.section.Closed? then ActOwn(r, a, n, e, nextId) else Quiet(r, n))
    else
      match e
      case Proceed => Quiet(r, DoProceed(n))
      case DeliverUpdate(version, content, writer, now) => DoDeliver(r, a, n, version, content, writer, now)
      case LandBody => Quiet(r, if n.incoming.Some? then n.(local := n.local.(content := n.incoming), incoming := None) else n)
      case Revoke(newVersion, issuer) => Quiet(Invalidate(r, a, newVersion, issuer), n)
      case LowerEntry(newVersion, tick, base) =>
        Quiet(r, n.(local := n.local.(entry := Some(Invalidated(base, Some(Max(newVersion - 1, 0)), tick))), writer := Lower))
      case RecoverCache(bound) => Quiet(r, n.(local := Recovered(n.local, bound)))
      case Sweep => Quiet(Reclaim(r, a), n)
  }

  predicate HasId(op: Op) { op.Casing? || op.Deriving? || op.Posting? || op.Refetching? }

  // ----- runs -----

  function Step(w: World, a: Agent, e: Event): World
    requires w.record.history != []
  {
    if a !in w.nodes || !Minted(w.record.history, e) then w
    else
      var n := w.nodes[a];
      var f := Act(w.record, a, n, e, |w.budgets|);
      World(f.record,
            w.nodes[a := f.node],
            if f.origin.Some? then w.origins + [f.origin.value] else w.origins,
            if f.result.Some? && HasId(n.op) then w.results[n.op.id := f.result.value] else w.results,
            if f.begins then w.budgets + [n.retries] else w.budgets)
  }

  /** A step appends at most one version and changes none. */
  lemma ActGrows(r: Record, a: Agent, n: Node, e: Event, nextId: nat)
    requires r.history != []
    ensures var f := Act(r, a, n, e, nextId);
      && r.history <= f.record.history
      && |f.record.history| == |r.history| + if f.origin.Some? then 1 else 0
  {
  }

  function Run(w: World, es: seq<(Agent, Event)>): World
    requires w.record.history != []
    decreases |es|
  {
    if es == [] then w
    else
      if es[0].0 in w.nodes then
        ActGrows(w.record, es[0].0, w.nodes[es[0].0], es[0].1, |w.budgets|);
        Run(Step(w, es[0].0, es[0].1), es[1..])
      else Run(w, es[1..])
  }

  ghost predicate Init(w: World) {
    && w.record == Record(w.record.history, map[], map[], {}, 0, map[])
    && |w.record.history| == 1 && w.origins == [Registered] && w.results == map[] && w.budgets == []
    && forall a :: a in w.nodes ==>
         w.nodes[a] == Node(w.nodes[a].strategy, w.nodes[a].retries, Local(None, None), Self, Idle, Closed, None, [])
  }

  /** The one assumption on runs. While a broadcast is between its two writes: the own thread does not write a body
      that goes with its own, later entry; the broadcast's body does not land in front of an own body write that
      its entry has overtaken, nor inside a cached read of another body; and a reader who saw the broadcast's entry
      does not read the old body. None of it matters if the bytes are the same. */
  predicate Apart(history: seq<Content>, n: Node, e: Event) {
    n.incoming.Some? ==>
      match e
      case Proceed =>
        (match n.section
         case PutBody(body) => n.writer.Self? ==> Some(body) == n.incoming
         case Touch(_, goes) => goes == n.incoming
         case ReadBody(_, goes) => goes == n.incoming ==> n.local.content == goes
         case _ => true)
      case LandBody =>
        (match n.section
         case PutBody(body) => n.writer.Push? ==> Some(body) == n.incoming
         case Touch(_, goes) => goes == n.incoming
         case ReadBody(_, goes) => goes == n.incoming
         case _ => true)
      case Derive => n.op.Deriving? && n.op.expected == |history| ==> n.local.content == n.incoming
      case _ => true
  }

  predicate ApartRun(w: World, es: seq<(Agent, Event)>)
    requires w.record.history != []
    decreases |es|
  {
    es == [] ||
    (if es[0].0 in w.nodes then
       Apart(w.record.history, w.nodes[es[0].0], es[0].1) &&
       (ActGrows(w.record, es[0].0, w.nodes[es[0].0], es[0].1, |w.budgets|);
        ApartRun(Step(w, es[0].0, es[0].1), es[1..]))
     else ApartRun(w, es[1..]))
  }

  // ----- what each agent keeps -----

  ghost predicate Fits(entry: Option<Entry>, body: Option<Content>, history: seq<Content>) {
    Coherent(Local(entry, body), history)
  }

  /** The entry goes with the body that will be there once everything open has been written. */
  ghost predicate LocalInv(n: Node, history: seq<Content>) {
    match n.section
    case Closed => Fits(n.local.entry, Going(n), history)
    case PutEntry(entry, body) => Fits(Some(entry), Some(body), history) && !entry.state.Invalid?
    case PutBody(body) =>
      && (n.incoming.None? || !n.writer.Push? ==> Fits(n.local.entry, Some(body), history))
      && (n.incoming.Some? && !n.writer.Self? ==> Fits(n.local.entry, n.incoming, history))
    case Touch(entry, goes) =>
      && Fits(Some(entry), goes, history) && (n.local.content == goes || (n.incoming.Some? && n.incoming == goes))
      && (n.strategy.Blind? || !entry.state.Invalid?)
    case ReadBody(version, goes) =>
      && Fits(n.local.entry, Going(n), history) && (n.local.content == goes || (n.incoming.Some? && n.incoming == goes))
      && (n.strategy.Blind? || (goes.Some? && Recorded(history, Seen(version, goes.value))))
  }

  /** The entry that will be there, as far as the own thread decides. */
  function EntryAhead(n: Node): Option<Entry> {
    match n.section
    case PutEntry(entry, _) => Some(entry)
    case Touch(entry, _) => Some(entry)
    case _ => n.local.entry
  }

  /** The last version handed out, or about to be. */
  function Floor(n: Node): int {
    if n.section.ReadBody? then n.section.version
    else if n.seen == [] then 0 else n.seen[|n.seen| - 1].version
  }

  /** Everything read is committed, in order, and a valid entry is at least as new as the last read. */
  ghost predicate ReadsInv(n: Node, history: seq<Content>) {
    && (forall i :: 0 <= i < |n.seen| ==> Recorded(history, n.seen[i]) && n.seen[i].version <= Floor(n))
    && (forall i, j :: 0 <= i < j < |n.seen| ==> n.seen[i].version <= n.seen[j].version)
    && (EntryAhead(n).Some? && !EntryAhead(n).value.state.Invalid? ==> Floor(n) <= EntryAhead(n).value.version)
  }

  /** A proposal against the current version is derived from its content. */
  ghost predicate OpInv(n: Node, history: seq<Content>) {
    match n.op
    case Deriving(_, _, _, expected, base) =>
      && n.section.Closed? && expected <= |history|
      && (expected == |history| > 0 ==>
            base == Some(history[expected - 1]) && Going(n) == base)
    case Posting(_, make, _, expected, body) =>
      expected <= |history| && (expected == |history| > 0 ==> body == make(Some(history[expected - 1])))
    case _ => true
  }

  ghost predicate NodeInv(n: Node, history: seq<Content>) {
    LocalInv(n, history) && OpInv(n, history) && (n.strategy.Blind? || ReadsInv(n, history))
  }

  lemma FitsGrows(entry: Option<Entry>, body: Option<Content>, before: seq<Content>, after: seq<Content>)
    requires before != [] && before <= after
    ensures Fits(entry, body, before) ==> Fits(entry, body, after)
  {
    if Fits(entry, body, before) { CoherentGrows(Local(entry, body), before, after); }
  }

  lemma NodeGrows(n: Node, before: seq<Content>, after: seq<Content>)
    requires NodeInv(n, before) && before != [] && before <= after
    ensures NodeInv(n, after)
  {
    FitsGrows(n.local.entry, Going(n), before, after);
    match n.section
    case PutEntry(entry, body) => FitsGrows(Some(entry), Some(body), before, after);
    case PutBody(body) => FitsGrows(n.local.entry, Some(body), before, after);
    case Touch(entry, goes) => FitsGrows(Some(entry), goes, before, after);
    case _ =>
  }

  /** An operation that proposes nothing may be put in place of any other. */
  lemma OpKeeps(n: Node, op: Op, history: seq<Content>)
    requires NodeInv(n, history) && !op.Deriving? && !op.Posting?
    ensures NodeInv(n.(op := op), history)
  {
  }

  /** Opening a section that will cache the current version, with or without handing it out. */
  lemma CachingKeeps(n: Node, history: seq<Content>, state: Mesi, now: int)
    requires history != [] && NodeInv(n, history) && CanCall(n) && !n.op.Deriving? && !n.op.Posting? && !state.Invalid?
    ensures var open := n.(section := PutEntry(OnFetch(n.strategy, |history|, state, now), history[|history| - 1]));
      NodeInv(open, history) && NodeInv(open.(seen := n.seen + [Latest(history)]), history)
  {
  }

  lemma FetchKeeps(r: Record, a: Agent, n: Node, now: int, op: Op)
    requires r.history != [] && NodeInv(n, r.history) && CanCall(n) && !op.Deriving? && !op.Posting?
    ensures var f := Fetched(r, a, n, now);
      f.record.history == r.history && NodeInv(f.node.(op := op), r.history)
  {
    OpKeeps(n, op, r.history);
    CachingKeeps(n.(op := op), r.history, Fetch(r, a).1, now);
  }

  lemma ReadKeeps(r: Record, a: Agent, n: Node, now: int)
    requires r.history != [] && NodeInv(n, r.history) && n.section.Closed? && n.op.Idle?
    ensures NodeInv(DoRead(r, a, n, now).node, r.history) && DoRead(r, a, n, now).record.history == r.history
  {
    if NeedsFetch(n.local, n.strategy, now) {
      if CanCall(n) { CachingKeeps(n, r.history, Fetch(r, a).1, now); }
    } else {
      HitKeeps(n, r.history, now);
    }
  }

  lemma HitKeeps(n: Node, history: seq<Content>, now: int)
    requires history != [] && NodeInv(n, history) && n.section.Closed? && n.op.Idle? && !NeedsFetch(n.local, n.strategy, now)
    ensures NodeInv(n.(section := Touch(OnRead(n.strategy, n.local.entry.value, now), Going(n))), history)
  {
  }

  lemma BeginKeeps(r: Record, a: Agent, n: Node, now: int, op: Op)
    requires r.history != [] && NodeInv(n, r.history) && CanBegin(n, now) && !op.Deriving? && !op.Posting?
    ensures NodeInv(DoBegin(r, a, n, now, op).node, r.history) && DoBegin(r, a, n, now, op).record.history == r.history
  {
    if CanCall(n) { FetchKeeps(r, a, n, now, op); }
    OpKeeps(n, op, r.history);
  }

  lemma CommitKeeps(r: Record, a: Agent, n: Node, now: int)
    requires r.history != [] && NodeInv(n, r.history) && n.op.Holding? && CanCall(n)
    ensures NodeInv(DoCommit(r, a, n, now).node, DoCommit(r, a, n, now).record.history)
  {
    var history := Commit(r, a, n.op.content).0.history;
    NodeGrows(n, r.history, history);
    OpKeeps(n, Idle, history);
    CachingKeeps(n.(op := Idle), history, Modified, now);
  }

  lemma PostKeeps(r: Record, a: Agent, n: Node, now: int)
    requires r.history != [] && NodeInv(n, r.history) && n.op.Posting? && CanCall(n)
    ensures NodeInv(DoPost(r, a, n, now).node, DoPost(r, a, n, now).record.history)
  {
    var (r1, answer) := CommitCas(r, a, n.op.expected, n.op.body);
    match answer
    case CasWon =>
      NodeGrows(n, r.history, r1.history);
      OpKeeps(n, Idle, r1.history);
      CachingKeeps(n.(op := Idle), r1.history, SharedState, now);
    case CasLost(_, current) => OpKeeps(n, Refetching(n.op.id, n.op.make, n.op.made + 1, current), r.history);
    case CasRefused(_) => OpKeeps(n, Idle, r.history);
  }

  lemma ProposeKeeps(r: Record, a: Agent, n: Node, now: int)
    requires r.history != [] && NodeInv(n, r.history) && n.op.Casing? && n.section.Closed?
    ensures NodeInv(DoPropose(r, a, n, now).node, r.history) && DoPropose(r, a, n, now).record.history == r.history
  {
    if n.local.entry.Some? {
    } else if CanCall(n) {
      FetchKeeps(r, a, n, now, n.op);
    }
  }

  lemma DeriveKeeps(n: Node, history: seq<Content>)
    requires history != [] && NodeInv(n, history) && n.op.Deriving? && Apart(history, n, Derive)
    ensures NodeInv(n.(op := Posting(n.op.id, n.op.make, n.op.made, n.op.expected, n.op.make(n.local.content))), history)
  {
  }

  lemma ProceedKeeps(n: Node, history: seq<Content>)
    requires history != [] && NodeInv(n, history) && Apart(history, n, Proceed)
    ensures NodeInv(DoProceed(n), history)
  {
    assert n.section.Closed? || !n.op.Deriving?;
  }

  lemma DeliverKeeps(r: Record, a: Agent, n: Node, e: Event)
    requires r.history != [] && NodeInv(n, r.history) && e.DeliverUpdate? && Minted(r.history, e)
    ensures NodeInv(DoDeliver(r, a, n, e.version, e.content, e.writer, e.now).node, r.history)
  {
  }

  lemma LandKeeps(n: Node, history: seq<Content>)
    requires NodeInv(n, history) && n.incoming.Some? && Apart(history, n, LandBody)
    ensures NodeInv(n.(local := n.local.(content := n.incoming), incoming := None), history)
  {
  }

  lemma LowerKeeps(n: Node, history: seq<Content>, entry: Entry)
    requires history != [] && NodeInv(n, history) && entry.state.Invalid? && entry.version < |history|
    ensures NodeInv(n.(local := n.local.(entry := Some(entry)), writer := Lower), history)
  {
  }

  lemma RecoverKeeps(n: Node, history: seq<Content>, bound: Option<int>)
    requires history != [] && NodeInv(n, history)
    ensures NodeInv(n.(local := Recovered(n.local, bound)), history)
  {
  }

  lemma OwnKeeps(r: Record, a: Agent, n: Node, e: Event, nextId: nat)
    requires r.history != [] && NodeInv(n, r.history) && Own(e) && n.section.Closed? && Apart(r.history, n, e)
    ensures NodeInv(ActOwn(r, a, n, e, nextId).node, ActOwn(r, a, n, e, nextId).record.history)
  {
    match e
    case Read(now) => if n.op.Idle? { ReadKeeps(r, a, n, now); }
    case BeginWrite(content, now) => if CanBegin(n, now) { BeginKeeps(r, a, n, now, Writing(content)); }
    case AcquireWrite => if n.op.Writing? { OpKeeps(n, Holding(n.op.content), r.history); }
    case CommitWrite(now) => if n.op.Holding? && CanCall(n) { CommitKeeps(r, a, n, now); }
    case BeginCas(make, now) => if CanBegin(n, now) { BeginKeeps(r, a, n, now, Casing(nextId, make, 0)); }
    case Propose(now) => if n.op.Casing? { ProposeKeeps(r, a, n, now); }
    case Derive => if n.op.Deriving? { DeriveKeeps(n, r.history); }
    case Post(now) => if n.op.Posting? && CanCall(n) { PostKeeps(r, a, n, now); }
    case Refetch(now) => if n.op.Refetching? && CanCall(n) { FetchKeeps(r, a, n, now, DoRefetch(r, a, n, now).node.op); }
  }

  lemma ActKeeps(r: Record, a: Agent, n: Node, e: Event, nextId: nat)
    requires r.history != [] && NodeInv(n, r.history) && Minted(r.history, e) && Apart(r.history, n, e)
    ensures NodeInv(Act(r, a, n, e, nextId).node, Act(r, a, n, e, nextId).record.history)
  {
    if Own(e) {
      if n.section.Closed? { OwnKeeps(r, a, n, e, nextId); }
    } else {
      match e
      case Proceed => ProceedKeeps(n, r.history);
      case DeliverUpdate(_, _, _, _) => DeliverKeeps(r, a, n, e);
      case LandBody => if n.incoming.Some? { LandKeeps(n, r.history); }
      case LowerEntry(newVersion, tick, base) => LowerKeeps(n, r.history, Invalidated(base, Some(Max(newVersion - 1, 0)), tick));
      case RecoverCache(bound) => RecoverKeeps(n, r.history, bound);
      case _ =>
    }
  }

  lemma ActKeepsOneWriter(r: Record, a: Agent, n: Node, e: Event, nextId: nat)
    requires r.history != [] && AtMostOneWriter(r)
    ensures AtMostOneWriter(Act(r, a, n, e, nextId).record)
  {
    if Own(e) {
      OwnKeepsOneWriter(r, a, n, e, nextId);
    } else if e.DeliverUpdate? {
      UpdateKeepsOneWriter(r, a, e.version, e.writer);
    } else if e.Revoke? {
      RevokeKeepsOneWriter(r, a, e.newVersion, e.issuer);
    } else {
      RevokeKeepsOneWriter(r, a, 0, 0);
    }
  }

  lemma OwnKeepsOneWriter(r: Record, a: Agent, n: Node, e: Event, nextId: nat)
    requires r.history != [] && AtMostOneWriter(r) && Own(e)
    ensures AtMostOneWriter(ActOwn(r, a, n, e, nextId).record)
  {
    match e
    case AcquireWrite => AcquireKeepsOneWriter(r, a);
    case CommitWrite(_) => if n.op.Holding? { CommitKeepsOneWriter(r, a, n.op.content); }
    case Post(_) => if n.op.Posting? { CasKeepsOneWriter(r, a, n.op.expected, n.op.body); }
    case _ => FetchKeepsOneWriter(r, a);
  }

  // ----- the bookkeeping of optimistic writes, in all runs -----

  predicate WithinBudget(n: Node) {
    match n.op
    case Casing(_, _, made) => made <= n.retries
    case Deriving(_, _, made, _, _) => made <= n.retries
    case Posting(_, _, made, _, _) => made <= n.retries
    case Refetching(_, _, made, _) => made <= n.retries + 1
    case _ => true
  }

  /** A derived version goes with the one winning outcome and carries the id and function of its write; an operation
      keeps its id until its outcome is set, and stays within its budget. */
  ghost predicate Settles(r: Record, n: Node, f: Effect, nextId: nat) {
    && f.node.retries == n.retries && f.node.strategy == n.strategy && WithinBudget(f.node)
    && (f.origin.Some? ==> !f.origin.value.Registered?)
    && ((f.origin.Some? && f.origin.value.Derived?) <==> (f.result.Some? && f.result.value.Won?))
    && (f.origin.Some? && f.origin.value.Derived? ==>
          n.op.Posting? && f.origin.value == Derived(n.op.id, n.op.make) && f.result == Some(Won(|f.record.history|))
          && n.op.expected == |r.history| && f.record.history == r.history + [n.op.body])
    && (f.result.Some? ==> HasId(n.op) && !HasId(f.node.op) && !f.begins)
    && (f.result.Some? && f.result.value.Exhausted? ==> f.result.value.attempts == n.retries + 1)
    && (HasId(n.op) ==> HasId(f.node.op) || f.result.Some?) && (f.begins ==> HasId(f.node.op) && !HasId(n.op))
    && (HasId(f.node.op) ==> if f.begins then f.node.op.id == nextId else HasId(n.op) && f.node.op.id == n.op.id)
  }

  lemma OwnSettles(r: Record, a: Agent, n: Node, e: Event, nextId: nat)
    requires r.history != [] && WithinBudget(n) && Own(e)
    ensures Settles(r, n, ActOwn(r, a, n, e, nextId), nextId)
  {
  }

  lemma ActSettles(r: Record, a: Agent, n: Node, e: Event, nextId: nat)
    requires r.history != [] && WithinBudget(n)
    ensures Settles(r, n, Act(r, a, n, e, nextId), nextId)
  {
    if Own(e) { OwnSettles(r, a, n, e, nextId); }
  }

  /** Some agent is working on the optimistic write `id`. */
  ghost predicate InFlight(nodes: map<Agent, Node>, id: nat) { exists a :: WorksOn(nodes, a, id) }

  predicate WorksOn(nodes: map<Agent, Node>, a: Agent, id: nat) { a in nodes && HasId(nodes[a].op) && nodes[a].op.id == id }

  /** Optimistic writes in flight have their own unfinished ids, and their agents' budgets; every write begun is in flight or
      has its outcome. */
  ghost predicate IdsInv(nodes: map<Agent, Node>, results: map<nat, CasResult>, budgets: seq<nat>) {
    && (forall id :: id in results ==> id < |budgets|)
    && (forall a :: a in nodes ==> WithinBudget(nodes[a]))
    && (forall a :: a in nodes && HasId(nodes[a].op) ==>
          nodes[a].op.id < |budgets| && nodes[a].op.id !in results && budgets[nodes[a].op.id] == nodes[a].retries)
    && (forall a, b :: a in nodes && b in nodes && HasId(nodes[a].op) && HasId(nodes[b].op) && nodes[a].op.id == nodes[b].op.id ==> a == b)
    && (forall id :: 0 <= id < |budgets| ==> id in results || InFlight(nodes, id))
  }

  /** A version derived by a finished write is that write's one win, and the other outcomes derived none. */
  ghost predicate ResultsInv(origins: seq<Origin>, results: map<nat, CasResult>, budgets: seq<nat>) {
    && (forall v :: 0 <= v < |origins| && origins[v].Derived? ==> origins[v].id in results && results[origins[v].id] == Won(v + 1))
    && (forall id :: id in results && results[id].Exhausted? ==> id < |budgets| && results[id].attempts == budgets[id] + 1)
    && (forall id :: id in results && results[id].Won? ==>
          0 < results[id].version <= |origins| && origins[results[id].version - 1].Derived? && origins[results[id].version - 1].id == id)
  }

  ghost predicate LedgerInv(w: World) {
    && |w.origins| == |w.record.history| > 0 && AtMostOneWriter(w.record)
    && IdsInv(w.nodes, w.results, w.budgets) && ResultsInv(w.origins, w.results, w.budgets)
  }

  lemma ResultsKept(r: Record, n: Node, f: Effect, origins: seq<Origin>, results: map<nat, CasResult>, budgets: seq<nat>)
    requires |origins| == |r.history| > 0 && Settles(r, n, f, |budgets|) && ResultsInv(origins, results, budgets)
    requires HasId(n.op) ==> n.op.id < |budgets| && n.op.id !in results && budgets[n.op.id] == n.retries
    ensures ResultsInv(if f.origin.Some? then origins + [f.origin.value] else origins,
                       if f.result.Some? && HasId(n.op) then results[n.op.id := f.result.value] else results,
                       if f.begins then budgets + [n.retries] else budgets)
  {
  }

  lemma IdsKept(r: Record, a: Agent, f: Effect, nodes: map<Agent, Node>, results: map<nat, CasResult>, budgets: seq<nat>)
    requires a in nodes && Settles(r, nodes[a], f, |budgets|) && IdsInv(nodes, results, budgets)
    ensures IdsInv(nodes[a := f.node],
                   if f.result.Some? && HasId(nodes[a].op) then results[nodes[a].op.id := f.result.value] else results,
                   if f.begins then budgets + [nodes[a].retries] else budgets)
  {
    var results' := if f.result.Some? && HasId(nodes[a].op) then results[nodes[a].op.id := f.result.value] else results;
    var budgets' := if f.begins then budgets + [nodes[a].retries] else budgets;
    forall id | 0 <= id < |budgets'| ensures id in results' || InFlight(nodes[a := f.node], id) {
      FlightKept(a, f.node, nodes, id);
    }
  }

  lemma FlightKept(a: Agent, n: Node, nodes: map<Agent, Node>, id: nat)
    requires a in nodes
    ensures HasId(n.op) && n.op.id == id ==> InFlight(nodes[a := n], id)
    ensures InFlight(nodes, id) && !(HasId(nodes[a].op) && nodes[a].op.id == id) ==> InFlight(nodes[a := n], id)
  {
    var after := nodes[a := n];
    assert HasId(n.op) && n.op.id == id ==> WorksOn(after, a, id);
    if InFlight(nodes, id) && !(HasId(nodes[a].op) && nodes[a].op.id == id) {
      var b :| WorksOn(nodes, b, id);
      assert WorksOn(after, b, id);
    }
  }

  lemma StepKeepsLedger(w: World, a: Agent, e: Event)
    requires LedgerInv(w)
    ensures LedgerInv(Step(w, a, e))
  {
    if a in w.nodes && Minted(w.record.history, e) {
      var n := w.nodes[a];
      var f := Act(w.record, a, n, e, |w.budgets|);
      ActGrows(w.record, a, n, e, |w.budgets|);
      ActSettles(w.record, a, n, e, |w.budgets|);
      ActKeepsOneWriter(w.record, a, n, e, |w.budgets|);
      ResultsKept(w.record, n, f, w.origins, w.results, w.budgets);
      IdsKept(w.record, a, f, w.nodes, w.results, w.budgets);
    }
  }

  lemma {:induction false} RunKeepsLedger(w: World, es: seq<(Agent, Event)>)
    requires LedgerInv(w)
    ensures LedgerInv(Run(w, es))
    decreases |es|
  {
    if es != [] {
      StepKeepsLedger(w, es[0].0, es[0].1);
      RunKeepsLedger(if es[0].0 in w.nodes then Step(w, es[0].0, es[0].1) else w, es[1..]);
    }
  }

  // ----- contents, in runs without overlaps -----

  /** Each derived version is its predecessor's content put through the winner's function. */
  ghost predicate OriginsInv(history: seq<Content>, origins: seq<Origin>) {
    && |origins| == |history| > 0 && origins[0].Registered?
    && forall v :: 0 < v < |history| && origins[v].Derived? ==> history[v] == origins[v].make(Some(history[v - 1]))
  }

  ghost predicate NodesInv(w: World) { forall a :: a in w.nodes ==> NodeInv(w.nodes[a], w.record.history) }

  ghost predicate Inv(w: World) { LedgerInv(w) && NodesInv(w) && OriginsInv(w.record.history, w.origins) }

  lemma StepKeepsNodes(w: World, a: Agent, e: Event)
    requires w.record.history != [] && NodesInv(w) && a in w.nodes && Minted(w.record.history, e) && Apart(w.record.history, w.nodes[a], e)
    ensures NodesInv(Step(w, a, e))
  {
    var f := Act(w.record, a, w.nodes[a], e, |w.budgets|);
    ActGrows(w.record, a, w.nodes[a], e, |w.budgets|);
    ActKeeps(w.record, a, w.nodes[a], e, |w.budgets|);
    forall b | b in w.nodes && b != a ensures NodeInv(w.nodes[b], f.record.history) {
      NodeGrows(w.nodes[b], w.record.history, f.record.history);
    }
  }

  lemma OriginsKept(r: Record, n: Node, f: Effect, nextId: nat, origins: seq<Origin>)
    requires OriginsInv(r.history, origins) && Settles(r, n, f, nextId) && OpInv(n, r.history)
    requires r.history <= f.record.history && |f.record.history| == |r.history| + if f.origin.Some? then 1 else 0
    ensures OriginsInv(f.record.history, if f.origin.Some? then origins + [f.origin.value] else origins)
  {
  }

  lemma StepKeeps(w: World, a: Agent, e: Event)
    requires Inv(w) && a in w.nodes && Apart(w.record.history, w.nodes[a], e)
    ensures Inv(Step(w, a, e))
  {
    StepKeepsLedger(w, a, e);
    if Minted(w.record.history, e) {
      var n := w.nodes[a];
      assert NodeInv(n, w.record.history) && WithinBudget(n);
      StepKeepsNodes(w, a, e);
      ActGrows(w.record, a, n, e, |w.budgets|);
      ActSettles(w.record, a, n, e, |w.budgets|);
      OriginsKept(w.record, n, Act(w.record, a, n, e, |w.budgets|), |w.budgets|, w.origins);
    }
  }

  lemma {:induction false} RunKeeps(w: World, es: seq<(Agent, Event)>)
    requires Inv(w) && ApartRun(w, es)
    ensures Inv(Run(w, es))
    decreases |es|
  {
    if es != [] {
      var (a, e) := es[0];
      if a in w.nodes {
        StepKeeps(w, a, e);
        RunKeeps(Step(w, a, e), es[1..]);
      } else {
        RunKeeps(w, es[1..]);
      }
    }
  }

  lemma InitInv(w: World)
    requires Init(w)
    ensures Inv(w)
  {
  }

  lemma Reached(w: World, es: seq<(Agent, Event)>)
    requires Init(w)
    ensures LedgerInv(Run(w, es)) && (ApartRun(w, es) ==> Inv(Run(w, es)))
  {
    InitInv(w);
    RunKeepsLedger(w, es);
    if ApartRun(w, es) { RunKeeps(w, es); }
  }

  // ----- theorems -----

  /** In every run in which no broadcast overlaps a section of its recipient with other bytes, whatever else arrives
      late, twice or out of order, each version an agent that honours INVALID has read or committed is a committed
      version with its own content, and they never go back: it always reads its own writes. */
  lemma ReadsAreCommittedAndOrdered(w: World, es: seq<(Agent, Event)>, a: Agent, i: nat, j: nat)
    requires Init(w) && ApartRun(w, es) && a in Run(w, es).nodes && !Run(w, es).nodes[a].strategy.Blind?
    requires i <= j < |Run(w, es).nodes[a].seen|
    ensures Recorded(Run(w, es).record.history, Run(w, es).nodes[a].seen[i])
    ensures Run(w, es).nodes[a].seen[i].version <= Run(w, es).nodes[a].seen[j].version
  {
    Reached(w, es);
    var n := Run(w, es).nodes[a];
    assert NodeInv(n, Run(w, es).record.history);
  }

  function FoldedTo(first: Content, origins: seq<Origin>): Content
    requires origins != []
  {
    if |origins| == 1 || !origins[|origins| - 1].Derived? then first
    else origins[|origins| - 1].make(Some(FoldedTo(first, origins[..|origins| - 1])))
  }

  lemma {:induction false} FoldOfInv(history: seq<Content>, origins: seq<Origin>)
    requires OriginsInv(history, origins) && forall v :: 0 < v < |origins| ==> origins[v].Derived?
    ensures history[|history| - 1] == FoldedTo(history[0], origins)
    decreases |origins|
  {
    if |origins| > 1 {
      FoldOfInv(history[..|history| - 1], origins[..|origins| - 1]);
    }
  }

  /** In every such run each optimistic win committed its function of exactly the version before; so a run of only
      optimistic writes ends at the fold of the winners in version order. */
  lemma WinnersFold(w: World, es: seq<(Agent, Event)>)
    requires Init(w) && ApartRun(w, es)
    ensures var end := Run(w, es);
      && |end.origins| == |end.record.history| > 0
      && (forall v :: 0 < v < |end.origins| && end.origins[v].Derived? ==>
            end.record.history[v] == end.origins[v].make(Some(end.record.history[v - 1])))
      && ((forall v :: 0 < v < |end.origins| ==> end.origins[v].Derived?) ==>
            end.record.history[|end.record.history| - 1] == FoldedTo(end.record.history[0], end.origins))
  {
    Reached(w, es);
    var end := Run(w, es);
    if forall v :: 0 < v < |end.origins| ==> end.origins[v].Derived? { FoldOfInv(end.record.history, end.origins); }
  }

  /** A win is exactly one version; anything else derived none; exhaustion is the whole budget. */
  ghost predicate Exact(origins: seq<Origin>, budgets: seq<nat>, id: nat, result: CasResult) {
    match result
    case Won(version) => forall v :: 0 <= v < |origins| ==> ((origins[v].Derived? && origins[v].id == id) <==> v + 1 == version)
    case Exhausted(attempts, _) =>
      && id < |budgets| && attempts == budgets[id] + 1
      && forall v :: 0 <= v < |origins| && origins[v].Derived? ==> origins[v].id != id
    case Failed(_) => forall v :: 0 <= v < |origins| && origins[v].Derived? ==> origins[v].id != id
  }

  lemma ExactNow(origins: seq<Origin>, results: map<nat, CasResult>, budgets: seq<nat>, id: nat)
    requires ResultsInv(origins, results, budgets) && id in results
    ensures Exact(origins, budgets, id, results[id])
  {
  }

  /** In every run at all a finished optimistic write either won exactly one version, or applied nothing; exhaustion
      comes after exactly the attempts its strategy allowed. */
  lemma OutcomesAreExact(w: World, es: seq<(Agent, Event)>, id: nat)
    requires Init(w) && id in Run(w, es).results
    ensures Exact(Run(w, es).origins, Run(w, es).budgets, id, Run(w, es).results[id])
  {
    Reached(w, es);
    ExactNow(Run(w, es).origins, Run(w, es).results, Run(w, es).budgets, id);
  }

  /** In every run at all no optimistic write is dropped: each one begun has its outcome, or exactly one agent is still
      working on it. */
  lemma NoWriteIsDropped(w: World, es: seq<(Agent, Event)>, id: nat)
    requires Init(w) && id < |Run(w, es).budgets|
    ensures id in Run(w, es).results <==> !InFlight(Run(w, es).nodes, id)
    ensures forall a, b :: WorksOn(Run(w, es).nodes, a, id) && WorksOn(Run(w, es).nodes, b, id) ==> a == b
  {
    Reached(w, es);
    LedgerCounts(Run(w, es), id);
  }

  lemma LedgerCounts(w: World, id: nat)
    requires LedgerInv(w) && id < |w.budgets|
    ensures id in w.results <==> !InFlight(w.nodes, id)
    ensures forall a, b :: WorksOn(w.nodes, a, id) && WorksOn(w.nodes, b, id) ==> a == b
  {
  }

  /** An undisturbed read returns: the current version if the strategy wants a fetch, or else the cached pair. */
  lemma ReadReturns(r: Record, a: Agent, n: Node, now: int)
    requires r.history != [] && n.op.Idle? && CanCall(n)
    ensures var after := DoProceed(DoProceed(Act(r, a, n, Read(now), 0).node));
      && after.section.Closed?
      && after.seen == n.seen + [if NeedsFetch(n.local, n.strategy, now) then Latest(r.history) else Hit(n.local)]
      && (NeedsFetch(n.local, n.strategy, now) ==> after.local == Placed(n.strategy, |r.history|, r.history[|r.history| - 1], Fetch(r, a).1, now))
  {
  }

  /** A plain write ends with its commit call: one version if the registry accepts it, none otherwise. */
  lemma PlainWriteEnds(r: Record, a: Agent, n: Node, now: int)
    requires r.history != [] && n.op.Holding? && CanCall(n)
    ensures var f := Act(r, a, n, CommitWrite(now), 0); var (r1, answer) := Commit(r, a, n.op.content);
      && f.node.op.Idle? && f.record == r1 && f.result.None?
      && (f.origin == if answer == Committed then Some(Plain(a)) else None)
      && (answer != Committed ==> f.node.local == n.local && f.node.section.Closed? && f.record.history == r.history)
  {
  }

  /** The fine steps, with nothing in between, are the handlers: a broadcast's two writes are one delivery. */
  lemma DeliveryIsHandler(r: Record, a: Agent, n: Node, version: int, content: Content, writer: Option<Agent>, now: int)
    requires r.history != [] && n.section.Closed? && n.incoming.None?
    ensures var d := Act(r, a, n, DeliverUpdate(version, content, writer, now), 0); var e := Act(d.record, a, d.node, LandBody, 0);
      e.node.local == AfterUpdate(n.local, n.strategy, r, a, version, content, now) && e.record == Updated(r, a, version, writer) && e.node.incoming.None?
  {
    UpdatedKeepsHistory(r, a, version, writer);
    assert Act(r, a, n, DeliverUpdate(version, content, writer, now), 0) == DoDeliver(r, a, n, version, content, writer, now);
  }

  lemma UpdatedKeepsHistory(r: Record, a: Agent, version: int, writer: Option<Agent>)
    ensures Updated(r, a, version, writer).history == r.history
  {
  }

  /** The two halves of an invalidation are one signal, which a holder that is ahead ignores. */
  lemma SignalIsHandler(r: Record, a: Agent, n: Node, version: int, issuer: Agent, tick: int)
    requires r.history != [] && n.section.Closed? && n.incoming.None?
    ensures var d := Act(r, a, n, Revoke(version, issuer), 0);
      && d.record == Invalidate(r, a, version, issuer) && d.record.history == r.history && d.node == n
      && (if Obsolete(r, a, version, issuer) then n.local else Act(d.record, a, n, LowerEntry(version, tick, n.local.entry), 0).node.local)
         == AfterInvalidation(n.local, r, a, version, issuer, tick)
  {
  }

  /** And so for recovery and sweep. */
  lemma RecoveryIsHandler(r: Record, a: Agent, n: Node, bound: Option<int>)
    requires r.history != []
    ensures Act(r, a, n, RecoverCache(bound), 0).node == n.(local := Recovered(n.local, bound)) && Act(r, a, n, RecoverCache(bound), 0).record == r
    ensures Act(r, a, n, Sweep, 0).record == Reclaim(r, a) && Act(r, a, n, Sweep, 0).node == n
  {
  }

  /** In every run at all at most one agent holds a write grant. */
  lemma SingleWriter(w: World, es: seq<(Agent, Event)>)
    requires Init(w)
    ensures AtMostOneWriter(Run(w, es).record)
  {
    Reached(w, es);
  }

  // ----- why overlaps and blind reads are excluded -----

  /** The blind benchmark strategy reads what was never committed: after one invalidation, a version zero. */
  lemma BlindReadsAreNot(r: Record, n: Node, content: Content)
    requires r.history == [content] && n.strategy.Blind? && n.op.Idle? && n.section.Closed? && n.seen == []
    requires n.local.entry.Some? && n.local.entry.value.version == 1 && n.local.content == Some(content)
    ensures var lowered := Act(r, 0, n, LowerEntry(1, 0, n.local.entry), 0).node;
      var reading := Act(r, 0, lowered, Read(0), 0).node;
      DoProceed(DoProceed(reading)).seen == [Seen(0, content)]
  {
  }

  /** Where the broadcast and the own thread meet: at a valid entry, or at a derivation whose function tells the
      broadcast's body from the one there is. */
  ghost predicate Meets(n: Node, e: Event) {
    match e
    case Proceed => n.local.entry.Some? && !n.local.entry.value.state.Invalid? && n.local.content.Some?
    case LandBody => n.local.entry.Some? && !n.local.entry.value.state.Invalid? && n.local.content.Some?
    case Derive => n.op.Deriving? && (n.op.make(n.local.content) == n.op.make(n.incoming) ==> n.local.content == n.incoming)
    case _ => false
  }

  /** The assumption is exact for the invariant: there the step keeps what every agent keeps exactly if the two are
      apart. */
  lemma ApartIsExact(r: Record, a: Agent, n: Node, e: Event)
    requires r.history != [] && NodeInv(n, r.history) && !n.strategy.Blind? && Meets(n, e)
    ensures NodeInv(Act(r, a, n, e, 0).node, r.history) <==> Apart(r.history, n, e)
  {
    if Apart(r.history, n, e) {
      ActKeeps(r, a, n, e, 0);
    }
  }
}
