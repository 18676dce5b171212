/** A run in which a broadcast and its recipient's own accesses to the two dictionaries overlap, and what it costs. */
module RuntimeOverlaps {
  import opened Foundations
  import opened Grants
  import opened AgentCache
  import opened Registry
  import opened AgentRuntime
  import opened RuntimeSystem

  function Reading(): seq<(Agent, Event)> { [(0, Read(0))] + [(0, Proceed), (0, Proceed)] }

  function Overwriting(second: Content): seq<(Agent, Event)> {
    ([(1, BeginWrite(second, 0))] + [(1, Proceed), (1, Proceed)]) + [(1, AcquireWrite), (1, CommitWrite(0))]
  }

  function Tearing(second: Content): seq<(Agent, Event)> { [(0, DeliverUpdate(2, second, Some(1), 0))] + Reading() }

  function Winning(make: Make): seq<(Agent, Event)> {
    [(0, BeginCas(make, 0)), (0, Propose(0)), (0, Derive)] + ([(0, LandBody)] + [(0, Post(0))])
  }

  /** Both together, in runs of any two agents from the start: the first reads, the second writes, and the broadcast of
      that write reaches the first around a read's and an optimistic write's looks at its dictionaries. The read is
      of a pair never committed, and the optimistic write wins with its function of the version before the last. */
  lemma OverlapsTear(w: World, first: Content, second: Content, make: Make)
    requires Init(w) && w.record.history == [first] && first != second && w.nodes.Keys == {0, 1}
    requires w.nodes[0].strategy.Lazy? && w.nodes[1].strategy.Lazy?
    ensures var es := (Reading() + Overwriting(second)) + (Tearing(second) + Winning(make));
      var end := Run(w, es);
      && !ApartRun(w, es)
      && 0 in end.nodes && end.nodes[0].strategy.Lazy? && Seen(2, first) in end.nodes[0].seen
      && end.record.history == [first, second, make(Some(first))] && |end.origins| == 3 && end.origins[2] == Derived(0, make)
  {
    var es := (Reading() + Overwriting(second)) + (Tearing(second) + Winning(make));
    ReadThenWrite(w, first, second);
    var mid := Run(w, Reading() + Overwriting(second));
    TearsThenWins(mid, first, second, make);
    RunThen(w, Reading() + Overwriting(second), Tearing(second) + Winning(make));
    var end := Run(w, es);
    assert end.origins == w.origins + [Plain(1)] + [Derived(0, make)];
    assert Seen(2, first) in end.nodes[0].seen;
    if ApartRun(w, es) { NothingTorn(w, es, Seen(2, first)); }
  }

  lemma NothingTorn(w: World, es: seq<(Agent, Event)>, s: Seen)
    requires Init(w) && ApartRun(w, es) && 0 in Run(w, es).nodes && !Run(w, es).nodes[0].strategy.Blind? && s in Run(w, es).nodes[0].seen
    ensures Recorded(Run(w, es).record.history, s)
  {
    var i :| 0 <= i < |Run(w, es).nodes[0].seen| && Run(w, es).nodes[0].seen[i] == s;
    ReadsAreCommittedAndOrdered(w, es, 0, i, i);
  }

  lemma ReadThenWrite(w: World, first: Content, second: Content)
    requires w.record == Record([first], map[], map[], {}, 0, map[]) && w.nodes.Keys == {0, 1} && Blank(w.nodes[0]) && Blank(w.nodes[1])
    ensures var r := Run(w, Reading() + Overwriting(second));
      && r.record == Commit(Acquire(Fetch(Fetch(w.record, 0).0, 1).0, 1), 1, second).0 && r.record.history == [first, second]
      && 0 in r.nodes && Caches(r.nodes[0], first)
      && r.origins == w.origins + [Plain(1)] && r.budgets == w.budgets
  {
    FetchesAndCaches(w, 0);
    RegistryThen(first, second, second);
    WritesThrough(Run(w, Reading()), 1, second);
    RunThen(w, Reading(), Overwriting(second));
  }

  lemma TearsThenWins(w: World, first: Content, second: Content, make: Make)
    requires w.record == Commit(Acquire(Fetch(Fetch(Record([first], map[], map[], {}, 0, map[]), 0).0, 1).0, 1), 1, second).0
    requires w.record.history == [first, second]
    requires 0 in w.nodes && Caches(w.nodes[0], first)
    ensures var r := Run(w, Tearing(second) + Winning(make));
      && r.record.history == [first, second, make(Some(first))] && r.origins == w.origins + [Derived(|w.budgets|, make)]
      && 0 in r.nodes && r.nodes[0].strategy.Lazy? && Seen(2, first) in r.nodes[0].seen
  {
    RegistryThen(first, second, make(Some(first)));
    TearsThenWinsAt(w, first, second, make);
  }

  lemma TearsThenWinsAt(w: World, first: Content, second: Content, make: Make)
    requires w.record.history == [first, second] && UpdateLands(w.record, 0, 2) && 0 in w.nodes && Caches(w.nodes[0], first)
    requires var won := CommitCas(Updated(w.record, 0, 2, Some(1)), 0, 2, make(Some(first)));
      won.1.CasWon? && won.0.history == [first, second, make(Some(first))]
    ensures var r := Run(w, Tearing(second) + Winning(make));
      && r.record.history == [first, second, make(Some(first))] && r.origins == w.origins + [Derived(|w.budgets|, make)]
      && 0 in r.nodes && r.nodes[0].strategy.Lazy? && Seen(2, first) in r.nodes[0].seen
  {
    TearsRead(w, 0, 1, first);
    var torn := Run(w, Tearing(second));
    assert torn.nodes[0].seen[|w.nodes[0].seen|] == Seen(2, first);
    UpdatedKeepsHistory(w.record, 0, 2, Some(1));
    TearsWin(torn, 0, make);
    RunThen(w, Tearing(second), Winning(make));
  }

  lemma {:induction false} RunThen(w: World, xs: seq<(Agent, Event)>, ys: seq<(Agent, Event)>)
    requires w.record.history != []
    ensures Run(w, xs).record.history != [] && Run(w, xs + ys) == Run(Run(w, xs), ys)
    decreases |xs|
  {
    if xs == [] {
      assert xs + ys == ys;
    } else {
      assert (xs + ys)[1..] == xs[1..] + ys;
      var (a, e) := xs[0];
      if a in w.nodes {
        ActGrows(w.record, a, w.nodes[a], e, |w.budgets|);
        RunThen(Step(w, a, e), xs[1..], ys);
      } else {
        RunThen(w, xs[1..], ys);
      }
    }
  }

  lemma RunFirst(w: World, a: Agent, e: Event, es: seq<(Agent, Event)>)
    requires w.record.history != [] && a in w.nodes
    ensures Step(w, a, e).record.history != [] && Run(w, [(a, e)] + es) == Run(Step(w, a, e), es)
  {
    ActGrows(w.record, a, w.nodes[a], e, |w.budgets|);
    assert ([(a, e)] + es)[1..] == es;
  }

  /** An event that changes only the agent it happens at. */
  lemma Quietly(w: World, a: Agent, e: Event, n: Node, rest: seq<(Agent, Event)>) returns (next: World)
    requires w.record.history != [] && a in w.nodes && Minted(w.record.history, e)
    requires Act(w.record, a, w.nodes[a], e, |w.budgets|) == Quiet(w.record, n)
    ensures next == w.(nodes := w.nodes[a := n]) && Run(w, [(a, e)] + rest) == Run(next, rest)
  {
    next := Step(w, a, e);
    RunFirst(w, a, e, rest);
  }

  ghost predicate Blank(n: Node) {
    n.strategy.Lazy? && n.local == Local(None, None) && n.op.Idle? && n.section.Closed? && n.incoming.None?
  }

  /** The agent is idle with this body cached. */
  ghost predicate Caches(n: Node, body: Content) {
    n.strategy.Lazy? && n.op.Idle? && CanCall(n) && n.local.content == Some(body)
  }

  /** A blank agent's read, to the end. */
  lemma FetchesAndCaches(w: World, a: Agent)
    requires w.record.history != [] && a in w.nodes && Blank(w.nodes[a])
    ensures var r := Run(w, [(a, Read(0))] + [(a, Proceed), (a, Proceed)]);
      && r.record == Fetch(w.record, a).0 && r.origins == w.origins && r.budgets == w.budgets && r.nodes.Keys == w.nodes.Keys
      && Caches(r.nodes[a], w.record.history[|w.record.history| - 1])
      && forall b :: b in w.nodes && b != a ==> r.nodes[b] == w.nodes[b]
  {
    var open := OpensFetch(w, a, Read(0), [(a, Proceed), (a, Proceed)]);
    CachesBoth(open, a);
  }

  /** The same world but for the record and one agent. */
  ghost predicate OnlyAt(w: World, v: World, a: Agent) {
    && v.origins == w.origins && v.budgets == w.budgets && v.nodes.Keys == w.nodes.Keys
    && forall b :: b in w.nodes && b != a ==> v.nodes[b] == w.nodes[b]
  }

  /** A blank agent's first call, when it reads or begins a write. */
  lemma OpensFetch(w: World, a: Agent, e: Event, rest: seq<(Agent, Event)>) returns (open: World)
    requires w.record.history != [] && a in w.nodes && Blank(w.nodes[a]) && (e == Read(0) || (e.BeginWrite? && e.now == 0))
    ensures OnlyAt(w, open, a) && open.record == Fetch(w.record, a).0 && open.record.history == w.record.history
    ensures a in open.nodes && open.nodes[a].section.PutEntry? && open.nodes[a].section.body == w.record.history[|w.record.history| - 1]
    ensures open.nodes[a].strategy.Lazy? && open.nodes[a].incoming.None? && open.nodes[a].op == if e.Read? then Idle else Writing(e.content)
    ensures Run(w, [(a, e)] + rest) == Run(open, rest)
  {
    open := Step(w, a, e);
    RunFirst(w, a, e, rest);
  }

  /** The two writes of a section that caches. */
  lemma CachesBoth(w: World, a: Agent)
    requires w.record.history != [] && a in w.nodes && w.nodes[a].section.PutEntry? && w.nodes[a].incoming.None?
    ensures var r := Run(w, [(a, Proceed), (a, Proceed)]); var n := w.nodes[a];
      && OnlyAt(w, r, a) && r.record == w.record && a in r.nodes && CanCall(r.nodes[a])
      && r.nodes[a].local.content == Some(n.section.body) && r.nodes[a].op == n.op && r.nodes[a].strategy == n.strategy
  {
    var next := Quietly(w, a, Proceed, DoProceed(w.nodes[a]), [(a, Proceed)]);
    next := Quietly(next, a, Proceed, DoProceed(next.nodes[a]), []);
    assert [(a, Proceed)] + [] == [(a, Proceed)];
  }

  lemma WritesThrough(w: World, b: Agent, content: Content)
    requires w.record.history != [] && b in w.nodes && Blank(w.nodes[b])
    requires var r := Fetch(w.record, b).0; Commit(Acquire(r, b), b, content).1.Committed?
    ensures var r := Run(w, ([(b, BeginWrite(content, 0))] + [(b, Proceed), (b, Proceed)]) + [(b, AcquireWrite), (b, CommitWrite(0))]);
      && r.record == Commit(Acquire(Fetch(w.record, b).0, b), b, content).0 && r.origins == w.origins + [Plain(b)]
      && r.budgets == w.budgets && r.nodes.Keys == w.nodes.Keys
      && forall a :: a in w.nodes && a != b ==> r.nodes[a] == w.nodes[a]
  {
    var begin := [(b, BeginWrite(content, 0))] + [(b, Proceed), (b, Proceed)];
    RunThen(w, begin, [(b, AcquireWrite), (b, CommitWrite(0))]);
    BeginsWrite(w, b, content);
    CommitsWrite(Run(w, begin), b, content);
  }

  lemma BeginsWrite(w: World, b: Agent, content: Content)
    requires w.record.history != [] && b in w.nodes && Blank(w.nodes[b])
    ensures var r := Run(w, [(b, BeginWrite(content, 0))] + [(b, Proceed), (b, Proceed)]);
      && r.record == Fetch(w.record, b).0 && r.origins == w.origins && r.budgets == w.budgets && r.nodes.Keys == w.nodes.Keys
      && r.nodes[b].op == Writing(content) && CanCall(r.nodes[b])
      && forall a :: a in w.nodes && a != b ==> r.nodes[a] == w.nodes[a]
  {
    var open := OpensFetch(w, b, BeginWrite(content, 0), [(b, Proceed), (b, Proceed)]);
    CachesBoth(open, b);
  }

  lemma CommitsWrite(w: World, b: Agent, content: Content)
    requires w.record.history != [] && b in w.nodes && w.nodes[b].op == Writing(content) && CanCall(w.nodes[b])
    requires Commit(Acquire(w.record, b), b, content).1.Committed?
    ensures var r := Run(w, [(b, AcquireWrite), (b, CommitWrite(0))]);
      && r.record == Commit(Acquire(w.record, b), b, content).0 && r.origins == w.origins + [Plain(b)]
      && r.budgets == w.budgets && r.nodes.Keys == w.nodes.Keys
      && forall a :: a in w.nodes && a != b ==> r.nodes[a] == w.nodes[a]
  {
    RunFirst(w, b, AcquireWrite, [(b, CommitWrite(0))]);
    var w1 := Step(w, b, AcquireWrite);
    RunFirst(w1, b, CommitWrite(0), []);
    assert [(b, CommitWrite(0))] + [] == [(b, CommitWrite(0))];
  }

  /** What the registry says along the way. */
  lemma RegistryThen(first: Content, second: Content, third: Content)
    ensures var read := Fetch(Record([first], map[], map[], {}, 0, map[]), 0).0;
      var written := Commit(Acquire(Fetch(read, 1).0, 1), 1, second);
      var pushed := Updated(written.0, 0, 2, Some(1));
      && written.1.Committed? && written.0.history == [first, second] && UpdateLands(written.0, 0, 2)
      && CommitCas(pushed, 0, 2, third).1.CasWon? && CommitCas(pushed, 0, 2, third).0.history == [first, second, third]
  {
    TwoFetches(first);
    AcquiresAndCommits(first, second);
    PushesAndWins([first, second], map[0 := 1, 1 := 2], third);
    assert [first, second] + [third] == [first, second, third];
  }

  lemma TwoFetches(first: Content)
    ensures Fetch(Fetch(Record([first], map[], map[], {}, 0, map[]), 0).0, 1).0
      == Record([first], map[0 := SharedState, 1 := SharedState], map[0 := 1, 1 := 1], {}, 0, map[0 := 0, 1 := 0])
  {
    var none := Record([first], map[], map[], {}, 0, map[]);
    var one := Record([first], map[0 := Exclusive], map[0 := 1], {}, 0, map[0 := 0]);
    assert Fetch(none, 0).0 == one;
    assert 0 in Peers(one, 1);
    assert Fetch(one, 1).1 == SharedState;
  }

  lemma AcquiresAndCommits(first: Content, second: Content)
    ensures var r := Record([first], map[0 := SharedState, 1 := SharedState], map[0 := 1, 1 := 1], {}, 0, map[0 := 0, 1 := 0]);
      Commit(Acquire(r, 1), 1, second)
      == (Record([first, second], map[0 := Invalid, 1 := Modified], map[0 := 1, 1 := 2], {0}, 0, map[0 := 0, 1 := 0]), Committed)
  {
    var r := Record([first], map[0 := SharedState, 1 := SharedState], map[0 := 1, 1 := 1], {}, 0, map[0 := 0, 1 := 0]);
    assert Peers(r, 1) == {0};
    assert Acquire(r, 1) == Record([first], map[0 := Invalid, 1 := Exclusive], map[0 := 1, 1 := 1], {0}, 0, map[0 := 0, 1 := 0]);
    CommitsHeld(first, second);
  }

  lemma CommitsHeld(first: Content, second: Content)
    ensures Commit(Record([first], map[0 := Invalid, 1 := Exclusive], map[0 := 1, 1 := 1], {0}, 0, map[0 := 0, 1 := 0]), 1, second)
      == (Record([first, second], map[0 := Invalid, 1 := Modified], map[0 := 1, 1 := 2], {0}, 0, map[0 := 0, 1 := 0]), Committed)
  {
    var held := Record([first], map[0 := Invalid, 1 := Exclusive], map[0 := 1, 1 := 1], {0}, 0, map[0 := 0, 1 := 0]);
    assert Peers(held, 1) == {} && [first] + [second] == [first, second];
    var committed := Commit(held, 1, second).0;
    assert committed.states == map[0 := Invalid, 1 := Modified];
    assert committed.observed == map[0 := 1, 1 := 2] && committed.transients == {0};
  }

  lemma PushesAndWins(history: seq<Content>, observed: map<Agent, nat>, third: Content)
    requires |history| == 2
    ensures var r := Record(history, map[0 := Invalid, 1 := Modified], observed, {0}, 0, map[0 := 0, 1 := 0]);
      && UpdateLands(r, 0, 2) && CommitCas(Updated(r, 0, 2, Some(1)), 0, 2, third).1.CasWon?
      && CommitCas(Updated(r, 0, 2, Some(1)), 0, 2, third).0.history == history + [third]
  {
    var r := Record(history, map[0 := Invalid, 1 := Modified], observed, {0}, 0, map[0 := 0, 1 := 0]);
    var pushed := Updated(r, 0, 2, Some(1));
    assert pushed.states == map[0 := SharedState, 1 := SharedState] && pushed.transients == {};
  }

  /** The agent will hand out the version of its entry with the body it has now. */
  ghost predicate Holds(n: Node, version: int, body: Content) {
    && n.strategy.Lazy? && n.op.Idle? && n.section.Closed? && n.local.content == Some(body)
    && n.local.entry.Some? && n.local.entry.value.version == version && n.local.entry.value.state == SharedState
  }

  lemma ReadsHeld(w: World, a: Agent, version: int, body: Content)
    requires w.record.history != [] && a in w.nodes && Holds(w.nodes[a], version, body)
    ensures var r := Run(w, [(a, Read(0))] + [(a, Proceed), (a, Proceed)]);
      && r.record == w.record && a in r.nodes && r.origins == w.origins && r.budgets == w.budgets
      && r.nodes[a].seen == w.nodes[a].seen + [Seen(version, body)] && Holds(r.nodes[a], version, body) && r.nodes[a].incoming == w.nodes[a].incoming
  {
    var n := w.nodes[a];
    var next := Quietly(w, a, Read(0), n.(section := Touch(OnRead(n.strategy, n.local.entry.value, 0), Going(n))), [(a, Proceed), (a, Proceed)]);
    next := Quietly(next, a, Proceed, DoProceed(next.nodes[a]), [(a, Proceed)]);
    next := Quietly(next, a, Proceed, DoProceed(next.nodes[a]), []);
    assert [(a, Proceed)] + [] == [(a, Proceed)];
  }

  lemma TearsRead(w: World, a: Agent, b: Agent, stale: Content)
    requires w.record.history != [] && a in w.nodes && UpdateLands(w.record, a, |w.record.history|)
    requires Caches(w.nodes[a], stale)
    ensures var h := w.record.history;
      var r := Run(w, [(a, DeliverUpdate(|h|, h[|h| - 1], Some(b), 0))] + ([(a, Read(0))] + [(a, Proceed), (a, Proceed)]));
      && r.record == Updated(w.record, a, |h|, Some(b)) && a in r.nodes && r.origins == w.origins && r.budgets == w.budgets
      && r.nodes[a].seen == w.nodes[a].seen + [Seen(|h|, stale)] && Holds(r.nodes[a], |h|, stale) && r.nodes[a].incoming == Some(h[|h| - 1])
  {
    var h := w.record.history;
    var push := DeliverUpdate(|h|, h[|h| - 1], Some(b), 0);
    RunFirst(w, a, push, [(a, Read(0))] + [(a, Proceed), (a, Proceed)]);
    ReadsHeld(Step(w, a, push), a, |h|, stale);
  }

  lemma TearsWin(w: World, a: Agent, make: Make)
    requires w.record.history != [] && a in w.nodes && w.nodes[a].incoming.Some? && w.nodes[a].local.content.Some?
    requires Holds(w.nodes[a], |w.record.history|, w.nodes[a].local.content.value)
    requires CommitCas(w.record, a, |w.record.history|, make(w.nodes[a].local.content)).1.CasWon?
    ensures var r := Run(w, [(a, BeginCas(make, 0)), (a, Propose(0)), (a, Derive)] + ([(a, LandBody)] + [(a, Post(0))]));
      && r.record == CommitCas(w.record, a, |w.record.history|, make(w.nodes[a].local.content)).0
      && r.origins == w.origins + [Derived(|w.budgets|, make)]
      && a in r.nodes && w.nodes[a].seen <= r.nodes[a].seen && r.nodes[a].strategy.Lazy?
  {
    RunThen(w, [(a, BeginCas(make, 0)), (a, Propose(0)), (a, Derive)], [(a, LandBody)] + [(a, Post(0))]);
    Proposes(w, a, make);
    LandsThenWins(Run(w, [(a, BeginCas(make, 0)), (a, Propose(0)), (a, Derive)]), a);
  }

  /** An optimistic write against a valid entry proposes what it derives from the body there is. */
  lemma Proposes(w: World, a: Agent, make: Make)
    requires w.record.history != [] && a in w.nodes && w.nodes[a].local.content.Some?
    requires Holds(w.nodes[a], |w.record.history|, w.nodes[a].local.content.value)
    ensures var r := Run(w, [(a, BeginCas(make, 0)), (a, Propose(0)), (a, Derive)]); var n := w.nodes[a];
      && r.record == w.record && r.origins == w.origins && a in r.nodes
      && r.nodes[a] == n.(op := Posting(|w.budgets|, make, 0, |w.record.history|, make(n.local.content)))
  {
    var rest := [(a, Propose(0)), (a, Derive)];
    var begun := BeginsCas(w, a, make, rest);
    ProposesThenDerives(begun, a);
    assert [(a, BeginCas(make, 0))] + rest == [(a, BeginCas(make, 0)), (a, Propose(0)), (a, Derive)];
  }

  lemma BeginsCas(w: World, a: Agent, make: Make, rest: seq<(Agent, Event)>) returns (begun: World)
    requires w.record.history != [] && a in w.nodes && w.nodes[a].local.content.Some?
    requires Holds(w.nodes[a], |w.record.history|, w.nodes[a].local.content.value)
    ensures begun.record == w.record && begun.origins == w.origins && Run(w, [(a, BeginCas(make, 0))] + rest) == Run(begun, rest)
    ensures begun.nodes == w.nodes[a := w.nodes[a].(op := Casing(|w.budgets|, make, 0))]
  {
    begun := Step(w, a, BeginCas(make, 0));
    RunFirst(w, a, BeginCas(make, 0), rest);
  }

  lemma ProposesThenDerives(w: World, a: Agent)
    requires w.record.history != [] && a in w.nodes && w.nodes[a].op.Casing? && w.nodes[a].section.Closed? && w.nodes[a].local.entry.Some?
    ensures var r := Run(w, [(a, Propose(0)), (a, Derive)]); var n := w.nodes[a];
      && r.record == w.record && r.origins == w.origins && a in r.nodes
      && r.nodes[a] == n.(op := Posting(n.op.id, n.op.make, n.op.made, n.local.entry.value.version, n.op.make(n.local.content)))
  {
    var n := w.nodes[a];
    var next := Quietly(w, a, Propose(0), n.(op := Deriving(n.op.id, n.op.make, n.op.made, n.local.entry.value.version, Going(n))), [(a, Derive)]);
    next := Quietly(next, a, Derive, n.(op := Posting(n.op.id, n.op.make, n.op.made, n.local.entry.value.version, n.op.make(n.local.content))), []);
    assert [(a, Propose(0))] + ([(a, Derive)] + []) == [(a, Propose(0)), (a, Derive)];
    assert [(a, Derive)] + [] == [(a, Derive)];
  }

  lemma LandsThenWins(w: World, a: Agent)
    requires w.record.history != [] && a in w.nodes && w.nodes[a].op.Posting? && w.nodes[a].section.Closed? && w.nodes[a].incoming.Some?
    requires CommitCas(w.record, a, w.nodes[a].op.expected, w.nodes[a].op.body).1.CasWon?
    ensures var r := Run(w, [(a, LandBody)] + [(a, Post(0))]); var op := w.nodes[a].op;
      && r.record == CommitCas(w.record, a, op.expected, op.body).0 && r.origins == w.origins + [Derived(op.id, op.make)]
      && a in r.nodes && w.nodes[a].seen <= r.nodes[a].seen && r.nodes[a].strategy == w.nodes[a].strategy
  {
    var n := w.nodes[a];
    var landed := Quietly(w, a, LandBody, n.(local := n.local.(content := n.incoming), incoming := None), [(a, Post(0))]);
    WinsNow(landed, a);
  }

  lemma WinsNow(w: World, a: Agent)
    requires w.record.history != [] && a in w.nodes && w.nodes[a].op.Posting? && CanCall(w.nodes[a])
    requires CommitCas(w.record, a, w.nodes[a].op.expected, w.nodes[a].op.body).1.CasWon?
    ensures var r := Run(w, [(a, Post(0))]); var op := w.nodes[a].op;
      && r.record == CommitCas(w.record, a, op.expected, op.body).0 && r.origins == w.origins + [Derived(op.id, op.make)]
      && a in r.nodes && w.nodes[a].seen <= r.nodes[a].seen && r.nodes[a].strategy == w.nodes[a].strategy
  {
    RunFirst(w, a, Post(0), []);
    assert [(a, Post(0))] + [] == [(a, Post(0))];
  }
}
