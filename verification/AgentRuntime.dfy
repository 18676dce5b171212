/** One agent's protocol participant for one artifact: cached reads, pessimistic and optimistic writes, and the
    handlers for invalidations and broadcasts. */
module AgentRuntime {
  import opened Foundations
  import opened Grants
  import opened AgentCache
  import opened Registry

  // ----- strategies -----

  datatype Strategy = Lazy | Eager | Broadcast | Lease(ttl: nat) | AccessCount(max: nat) | Blind

  predicate RequiresRefresh(s: Strategy, e: Entry, now: int) {
    match s
    case Blind => false
    case Lease(_) => e.state.Invalid? || e.expiresAt.None? || now >= e.expiresAt.value
    case AccessCount(max) => e.state.Invalid? || e.accesses >= max
    case _ => e.state.Invalid?
  }

  function OnRead(s: Strategy, e: Entry, now: int): Entry {
    var touched := e.(accesses := e.accesses + 1);
    if s.Lease? && e.expiresAt.None? then touched.(expiresAt := Some(now + s.ttl)) else touched
  }

  function OnFetch(s: Strategy, version: int, state: Mesi, now: int): Entry {
    Entry(state, version, 0, now, if s.Lease? then Some(now + s.ttl) else None)
  }

  // ----- the local view -----

  /** The cache entry and the content body, kept in two dictionaries. */
  datatype Local = Local(entry: Option<Entry>, content: Option<Content>)

  datatype Seen = Seen(version: int, content: Content)

  predicate NeedsFetch(l: Local, s: Strategy, now: int) { l.entry.None? || RequiresRefresh(s, l.entry.value, now) }

  function Placed(s: Strategy, version: int, content: Content, state: Mesi, now: int): Local {
    Local(Some(OnFetch(s, version, state, now)), Some(content))
  }

  /** A cache hit: the entry's version with whatever body is at hand. */
  function Hit(l: Local): Seen
    requires l.entry.Some?
  {
    Seen(l.entry.value.version, if l.content.Some? then l.content.value else [])
  }

  function AfterHit(l: Local, s: Strategy, now: int): Local
    requires l.entry.Some?
  {
    l.(entry := Some(OnRead(s, l.entry.value, now)))
  }

  function AfterInvalidation(l: Local, r: Record, a: Agent, newVersion: int, issuer: Agent, tick: int): Local {
    if Obsolete(r, a, newVersion, issuer) then l
    else l.(entry := Some(Invalidated(l.entry, Some(Max(newVersion - 1, 0)), tick)))
  }

  function AfterUpdate(l: Local, s: Strategy, r: Record, a: Agent, version: int, content: Content, now: int): Local {
    if UpdateLands(r, a, version) then Placed(s, version, content, SharedState, now) else l
  }

  function Recovered(l: Local, bound: Option<int>): Local {
    if l.entry.None? then l else l.(entry := Some(Lowered(l.entry.value, bound)))
  }

  /** A peer's signal of version `v` takes nothing from an agent that holds a grant and has observed `v` or a later version, in
      the registry or in its cache; from any other it takes the grant, and its cached entry. The agent's own signal
      always does. */
  lemma SignalTakesExactly(l: Local, r: Record, a: Agent, v: int, issuer: Agent, tick: int)
    ensures var ahead := issuer != a && StateOf(r, a) in {SharedState, Exclusive, Modified} && a in r.observed && v <= r.observed[a];
      var registry, cache := Invalidate(r, a, v, issuer), AfterInvalidation(l, r, a, v, issuer, tick);
      && (ahead ==> registry == r && cache == l)
      && (!ahead ==> StateOf(registry, a) == Invalid && a !in registry.transients && cache.content == l.content
                     && cache.entry.Some? && cache.entry.value.state == Invalid && cache.entry.value.version <= Max(v - 1, 0))
      && forall b :: b != a ==> StateOf(registry, b) == StateOf(r, b)
  {
  }

  /** A broadcast of the current version reaches every agent without a write claim: it is cached, held SHARED and observed, and so
      is its writer's relinquished grant; an older one, or one against a claim, moves no grant and no cache. Either
      way recipient and writer are out of transition. */
  lemma BroadcastTakesExactly(l: Local, s: Strategy, r: Record, a: Agent, version: int, content: Content, writer: Option<Agent>, now: int)
    requires version <= |r.history|
    ensures var lands := version == |r.history| && StateOf(r, a) !in {Exclusive, Modified};
      var registry, cache := Updated(r, a, version, writer), AfterUpdate(l, s, r, a, version, content, now);
      && (lands ==> cache == Placed(s, version, content, SharedState, now) && StateOf(registry, a) == SharedState
                    && a in registry.observed && registry.observed[a] == |r.history|
                    && (writer.Some? ==> StateOf(registry, writer.value) == SharedState))
      && (!lands ==> cache == l && registry.states == r.states && registry.observed == r.observed)
      && registry.transients == r.transients - {a} - (if writer.Some? then {writer.value} else {}) && registry.history == r.history
      && forall b :: b != a && writer != Some(b) ==> StateOf(registry, b) == StateOf(r, b)
  {
  }

  // ----- when a cached read is served -----

  /** The view after cached reads at the given ticks. */
  function Hits(l: Local, s: Strategy, ticks: seq<int>): Local
    requires l.entry.Some?
  {
    if ticks == [] then l
    else
      var before := Hits(l, s, ticks[..|ticks| - 1]);
      if before.entry.None? then before else AfterHit(before, s, ticks[|ticks| - 1])
  }

  /** After a fetch at tick `t` and any number of cached reads: a lease sends the next read back to the coordinator exactly from
      its expiry on, an access count exactly after its maximum, and any other strategy only once the entry is
      INVALID, which the blind one ignores. */
  lemma {:induction false} ServedExactly(s: Strategy, version: int, content: Content, state: Mesi, t: int, ticks: seq<int>, now: int)
    requires !state.Invalid?
    ensures var l := Hits(Placed(s, version, content, state, t), s, ticks);
      && l.entry.Some? && l.entry.value.version == version && l.content == Some(content) && l.entry.value.state == state
      && l.entry.value.accesses == |ticks| && l.entry.value.expiresAt == (if s.Lease? then Some(t + s.ttl) else None)
      && (NeedsFetch(l, s, now) <==>
            match s
            case Lease(ttl) => now >= t + ttl
            case AccessCount(max) => |ticks| >= max
            case _ => false)
      && (NeedsFetch(Recovered(l, None), s, now) <==> !s.Blind?)
    decreases |ticks|
  {
    if ticks != [] { ServedExactly(s, version, content, state, t, ticks[..|ticks| - 1], now); }
  }

  /** A valid entry's body is the one committed at its version; an entry never runs ahead of the history, and
      at the current version even an INVALID one has the current body. */
  ghost predicate Coherent(l: Local, history: seq<Content>) {
    l.entry.Some? ==>
      && l.entry.value.version <= |history|
      && (l.entry.value.version == |history| > 0 ==> l.content == Some(history[|history| - 1]))
      && (!l.entry.value.state.Invalid? ==>
            0 < l.entry.value.version && l.content == Some(history[l.entry.value.version - 1]))
  }

  lemma CoherentGrows(l: Local, before: seq<Content>, after: seq<Content>)
    requires Coherent(l, before) && before != [] && before <= after
    ensures Coherent(l, after)
  {
  }

  ghost predicate Recorded(history: seq<Content>, s: Seen) {
    0 < s.version <= |history| && s.content == history[s.version - 1]
  }

  /** The two dictionaries are written one after the other, and a cached read looks at one after the other. Let a
      fetch or commit cache version `v` with body `b` while a broadcast of the current version with body `c` is
      applied. If the two writers cross or keep apart, the pair at the end is one writer's and coherent. If one
      falls inside the other, the entry is of one and the body of the other, and the pair is coherent exactly if
      both bodies are the same. A cached read inside the broadcast, or around it, is committed exactly then too. */
  lemma OverlapsExactly(s: Strategy, history: seq<Content>, own: Entry, b: Content, c: Content, now: int)
    requires history != [] && c == history[|history| - 1]
    requires !own.state.Invalid? && 0 < own.version <= |history| && b == history[own.version - 1]
    ensures var pushed := OnFetch(s, |history|, SharedState, now);
      && Coherent(Local(Some(own), Some(b)), history) && Coherent(Local(Some(pushed), Some(c)), history)
      && (Coherent(Local(Some(pushed), Some(b)), history) <==> b == c)
      && (Coherent(Local(Some(own), Some(c)), history) <==> b == c)
      && (Recorded(history, Hit(Local(Some(pushed), Some(b)))) <==> b == c)
      && (Recorded(history, Seen(own.version, c)) <==> b == c)
  {
  }

  // ----- the coordinator as the runtime meets it -----

  datatype Call = CallFetch | CallAcquire | CallCommit(content: Content) | CallCas(expected: int, content: Content)

  /** Before each of this runtime's calls the other agents may do anything that keeps what is committed. */
  class Coordinator {
    var record: Record
    var turn: nat
    const others: nat -> Record -> Record
    ghost var calls: seq<Call>
    ghost var answers: seq<CasAnswer>      // what this runtime's optimistic posts were told
    ghost var verdicts: seq<CommitAnswer>  // and its pessimistic commits
    ghost var committed: seq<nat>

    constructor (record: Record, others: nat -> Record -> Record)
      ensures this.record == record && this.others == others && turn == 0 && calls == [] && answers == [] && verdicts == [] && committed == []
    {
      this.record := record;
      this.others := others;
      turn, calls, answers, verdicts, committed := 0, [], [], [], [];
    }

    method Yield()
      modifies this`record, this`turn
      ensures old(record).history <= record.history
    {
      var next := others(turn)(record);
      if record.history <= next.history {
        record := next;
      }
      turn := turn + 1;
    }

    method DoFetch(a: Agent) returns (grant: Mesi, version: nat, content: Content)
      requires record.history != []
      modifies this`record, this`turn, this`calls
      ensures old(record).history <= record.history && calls == old(calls) + [CallFetch]
      ensures version == |record.history| && content == record.history[version - 1] && !grant.Invalid?
    {
      Yield();
      grant, version, content := Fetch(record, a).1, |record.history|, record.history[|record.history| - 1];
      record := Fetch(record, a).0;
      calls := calls + [CallFetch];
    }

    method DoAcquire(a: Agent)
      modifies this`record, this`turn, this`calls
      ensures old(record).history <= record.history && Writes(StateOf(record, a)) && calls == old(calls) + [CallAcquire]
    {
      Yield();
      record := Acquire(record, a);
      calls := calls + [CallAcquire];
    }

    method DoCommit(a: Agent, content: Content) returns (answer: CommitAnswer)
      modifies this
      ensures old(record).history <= record.history && answers == old(answers) && verdicts == old(verdicts) + [answer]
      ensures calls == old(calls) + [CallCommit(content)]
      ensures answer.Committed? ==>
        record.history != [] && record.history[|record.history| - 1] == content && committed == old(committed) + [|record.history|]
      ensures !answer.Committed? ==> committed == old(committed)
    {
      Yield();
      answer := Commit(record, a, content).1;
      record := Commit(record, a, content).0;
      verdicts, calls := verdicts + [answer], calls + [CallCommit(content)];
      if answer.Committed? { committed := committed + [|record.history|]; }
    }

    method DoCommitCas(a: Agent, expected: int, content: Content) returns (answer: CasAnswer)
      modifies this
      ensures old(record).history <= record.history && answers == old(answers) + [answer] && verdicts == old(verdicts)
      ensures calls == old(calls) + [CallCas(expected, content)]
      ensures answer.CasWon? ==>
        && old(|record.history|) <= expected == |record.history| - 1
        && record.history[expected] == content
        && (expected == old(|record.history|) ==> record.history == old(record).history + [content])
        && committed == old(committed) + [|record.history|]
      ensures !answer.CasWon? ==> committed == old(committed)
    {
      Yield();
      answer := CommitCas(record, a, expected, content).1;
      record := CommitCas(record, a, expected, content).0;
      answers, calls := answers + [answer], calls + [CallCas(expected, content)];
      if answer.CasWon? { committed := committed + [|record.history|]; }
    }
  }

  datatype WriteResult = Written(version: nat) | WriteRefused(answer: CommitAnswer) | WriteMismatch

  datatype CasResult = Won(version: nat) | Exhausted(attempts: nat, lastCurrent: int) | Failed(refusal: Refusal)

  function FetchIf(needed: bool): seq<Call> { if needed then [CallFetch] else [] }

  /** What a caller's function produces, with the hash it may claim for it. */
  datatype Produced = Produced(content: Content, hash: Option<Digest>)

  predicate Claimed(p: Produced) { p.hash.None? || p.hash.value == Sha256(p.content) }

  datatype Attempted = Posted(answer: CasAnswer) | Mismatched

  datatype CasOutcome = Ended(result: CasResult) | HashMismatch

  /** How an optimistic write must end, given the answers to its posts: it goes on after every lost one while retries are left,
      and stops at anything else. */
  ghost predicate EndsRightly(answers: seq<CasAnswer>, retries: nat, o: CasOutcome) {
    var n := |answers|;
    match o
    case Ended(Won(_)) => 0 < n <= retries + 1 && answers[n - 1] == CasWon && AllLost(answers[..n - 1])
    case Ended(Failed(refusal)) => 0 < n <= retries + 1 && answers[n - 1] == CasRefused(refusal) && AllLost(answers[..n - 1])
    case Ended(Exhausted(attempts, current)) =>
      n == attempts == retries + 1 && AllLost(answers) && current == answers[n - 1].current
    case HashMismatch => n <= retries && AllLost(answers)
  }

  lemma LastOf(before: seq<CasAnswer>, lost: seq<CasAnswer>, last: CasAnswer)
    ensures before + (lost + [last]) == before + lost + [last] && (lost + [last])[..|lost|] == lost
  {
  }

  /** The last version is the function's value at the one before it, with no wrong hash. */
  ghost predicate MadeFromLast(make: Option<Content> -> Produced, h: seq<Content>) {
    2 <= |h| && Claimed(make(Some(h[|h| - 2]))) && h[|h| - 1] == make(Some(h[|h| - 2])).content
  }

  ghost predicate AllLost(answers: seq<CasAnswer>) { forall k :: 0 <= k < |answers| ==> answers[k].CasLost? }

  /** What the event bus may hand to a runtime between any two of its own steps. */
  datatype Mail =
    | Nothing
    | Signal(newVersion: int, issuer: Agent, tick: int)
    | Broadcast(version: int, body: Content, writer: Option<Agent>, now: int)
    | Recovery(bound: Option<int>)

  /** Messages were minted from commits. */
  predicate MintedFrom(history: seq<Content>, m: Mail) {
    match m
    case Signal(newVersion, _, _) => newVersion <= |history|
    case Broadcast(version, body, _, _) => version <= |history| && (version == |history| > 0 ==> body == history[version - 1])
    case _ => true
  }

  /** The cache and the registry after a message. */
  function AfterMail(l: Local, s: Strategy, r: Record, a: Agent, m: Mail): (Local, Record) {
    if !MintedFrom(r.history, m) then (l, r)
    else
      match m
      case Nothing => (l, r)
      case Signal(newVersion, issuer, tick) => (AfterInvalidation(l, r, a, newVersion, issuer, tick), Invalidate(r, a, newVersion, issuer))
      case Broadcast(version, body, writer, now) => (AfterUpdate(l, s, r, a, version, body, now), Updated(r, a, version, writer))
      case Recovery(bound) => (Recovered(l, bound), r)
  }

  class Runtime {
    const me: Agent
    const id: ArtifactId
    const strategy: Strategy
    const retries: nat          // what the strategy allows
    const coordinator: Coordinator
    const cache: ArtifactCache
    var content: Option<Content>
    const mail: nat -> Mail
    var received: nat

    constructor (me: Agent, id: ArtifactId, strategy: Strategy, retries: nat, coordinator: Coordinator, mail: nat -> Mail)
      ensures this.me == me && this.id == id && this.strategy == strategy && this.retries == retries && this.coordinator == coordinator
      ensures this.mail == mail && fresh(cache) && View() == Local(None, None)
    {
      this.me, this.id, this.strategy, this.retries, this.coordinator := me, id, strategy, retries, coordinator;
      this.mail, received := mail, 0;
      cache := new ArtifactCache();
      content := None;
    }

    function View(): Local
      reads this, cache
    {
      Local(cache.Get(id), content)
    }

    ghost predicate Valid()
      reads this, cache, coordinator
    {
      coordinator.record.history != [] && Coherent(View(), coordinator.record.history)
    }

    /** The current version is cached, with this grant. */
    ghost predicate CachesLatest(state: Mesi, now: int)
      reads this, cache, coordinator
    {
      var h := coordinator.record.history;
      h != [] && View() == Placed(strategy, |h|, h[|h| - 1], state, now)
    }

    method Refresh(now: int) returns (seen: Seen)
      requires Valid()
      modifies this, cache, coordinator`record, coordinator`turn, coordinator`calls
      ensures Valid() && old(coordinator.record).history <= coordinator.record.history && coordinator.calls == old(coordinator.calls) + [CallFetch]
      ensures var h := coordinator.record.history;
        && seen == Seen(|h|, h[|h| - 1])
        && View().entry.Some? && !View().entry.value.state.Invalid?
        && View() == Placed(strategy, |h|, h[|h| - 1], View().entry.value.state, now)
    {
      var grant, version, body := coordinator.DoFetch(me);
      cache.Put(id, OnFetch(strategy, version, grant, now));
      content := Some(body);
      seen := Seen(version, body);
      assert View() == Placed(strategy, version, body, grant, now);
    }

    /** Every read but a blind one hands out a committed version with its own body. */
    method Read(now: int) returns (seen: Seen)
      requires Valid()
      modifies this, cache, coordinator`record, coordinator`turn, coordinator`calls
      ensures Valid() && old(coordinator.record).history <= coordinator.record.history
      ensures coordinator.calls == old(coordinator.calls) + FetchIf(NeedsFetch(old(View()), strategy, now))
      ensures var l := old(View());
        if NeedsFetch(l, strategy, now) then seen.version == |coordinator.record.history|
        else seen == Hit(l) && View() == AfterHit(l, strategy, now) && coordinator.record == old(coordinator.record)
      ensures !strategy.Blind? ==> 0 < seen.version <= |coordinator.record.history| && seen.content == coordinator.record.history[seen.version - 1]
    {
      var entry := cache.Get(id);
      if entry.None? || RequiresRefresh(strategy, entry.value, now) {
        seen := Refresh(now);
        return;
      }
      var touched := OnRead(strategy, entry.value, now);
      cache.Put(id, touched);
      seen := Seen(touched.version, if content.Some? then content.value else []);
    }

    /** The fetch with which both kinds of write begin, if the strategy wants one. */
    method Freshen(now: int)
      requires Valid()
      modifies this, cache, coordinator`record, coordinator`turn, coordinator`calls
      ensures Valid() && old(coordinator.record).history <= coordinator.record.history
      ensures coordinator.calls == old(coordinator.calls) + FetchIf(NeedsFetch(old(View()), strategy, now))
    {
      var entry := cache.Get(id);
      if entry.None? || RequiresRefresh(strategy, entry.value, now) {
        var _ := Refresh(now);
      }
    }

    /** The two dictionaries after this runtime's own commit. */
    method CacheLatest(state: Mesi, body: Content, now: int)
      requires Valid() && body == coordinator.record.history[|coordinator.record.history| - 1]
      modifies this, cache
      ensures Valid() && CachesLatest(state, now)
    {
      cache.Put(id, OnFetch(strategy, |coordinator.record.history|, state, now));
      content := Some(body);
    }

    method Write(produced: Produced, now: int) returns (result: WriteResult)
      requires Valid()
      modifies this, cache, coordinator
      ensures Valid() && old(coordinator.record).history <= coordinator.record.history
      ensures match result
        case Written(v) =>
          && Claimed(produced) && coordinator.verdicts == old(coordinator.verdicts) + [Committed]
          && v == |coordinator.record.history| && coordinator.record.history[v - 1] == produced.content
          && coordinator.committed == old(coordinator.committed) + [v] && CachesLatest(Modified, now)
        case WriteRefused(answer) =>
          && Claimed(produced) && answer != Committed && coordinator.verdicts == old(coordinator.verdicts) + [answer]
          && coordinator.committed == old(coordinator.committed)
        case WriteMismatch => !Claimed(produced) && coordinator.record == old(coordinator.record) && View() == old(View())
      ensures coordinator.calls == old(coordinator.calls) +
        if Claimed(produced) then FetchIf(NeedsFetch(old(View()), strategy, now)) + [CallAcquire, CallCommit(produced.content)] else []
    {
      if !Claimed(produced) { return WriteMismatch; }
      Freshen(now);
      var answer := AcquireAndCommit(produced.content, now);
      result := if answer.Committed? then Written(|coordinator.record.history|) else WriteRefused(answer);
    }

    method AcquireAndCommit(body: Content, now: int) returns (answer: CommitAnswer)
      requires Valid()
      modifies this, cache, coordinator
      ensures Valid() && old(coordinator.record).history <= coordinator.record.history && coordinator.verdicts == old(coordinator.verdicts) + [answer]
      ensures coordinator.calls == old(coordinator.calls) + [CallAcquire, CallCommit(body)]
      ensures answer.Committed? ==> var h := coordinator.record.history;
        h[|h| - 1] == body && coordinator.committed == old(coordinator.committed) + [|h|] && CachesLatest(Modified, now)
      ensures !answer.Committed? ==> coordinator.committed == old(coordinator.committed)
    {
      Receive();
      coordinator.DoAcquire(me);
      answer := coordinator.DoCommit(me, body);
      Receive();
      if answer.Committed? { CacheLatest(Modified, body, now); }
    }

    /** The body of one attempt: propose against the cached entry, post, and cache a win. Messages may arrive before it,
        between its look at the entry and its look at the body, and before the answer is cached. */
    method Attempt(make: Option<Content> -> Produced, now: int) returns (r: Attempted)
      requires Valid()
      modifies this, cache, coordinator
      ensures Valid() && old(coordinator.record).history <= coordinator.record.history
      ensures coordinator.answers == old(coordinator.answers) + if r.Posted? then [r.answer] else []
      ensures r == Posted(CasWon) ==>
        && MadeFromLast(make, coordinator.record.history) && CachesLatest(SharedState, now)
        && coordinator.committed == old(coordinator.committed) + [|coordinator.record.history|]
      ensures old(coordinator.calls) <= coordinator.calls
      ensures r != Posted(CasWon) ==> coordinator.committed == old(coordinator.committed)
      ensures r.Mismatched? ==> exists base :: !Claimed(make(base))
    {
      var expected, produced := Propose(make, now);
      if !Claimed(produced) { return Mismatched; }
      var answer := Post(expected, produced.content, now);
      r := Posted(answer);
    }

    /** A proposal against the current version is made from the current body. */
    method Propose(make: Option<Content> -> Produced, now: int) returns (expected: int, produced: Produced)
      requires Valid()
      modifies this, cache, coordinator`record, coordinator`turn, coordinator`calls
      ensures Valid() && old(coordinator.record).history <= coordinator.record.history
      ensures var h := coordinator.record.history;
        expected <= |h| && (expected == |h| ==> produced == make(Some(h[|h| - 1])))
      ensures exists base :: produced == make(base)
      ensures coordinator.calls == old(coordinator.calls) || coordinator.calls == old(coordinator.calls) + [CallFetch]
    {
      Receive();
      var entry := cache.Get(id);
      if entry.None? {
        var _ := Refresh(now);
        entry := cache.Get(id);
      }
      expected := entry.value.version;
      Receive();
      produced := make(content);
    }

    method Post(expected: int, body: Content, now: int) returns (answer: CasAnswer)
      requires Valid() && expected <= |coordinator.record.history|
      modifies this, cache, coordinator
      ensures Valid() && old(coordinator.record).history <= coordinator.record.history
      ensures coordinator.answers == old(coordinator.answers) + [answer] && coordinator.calls == old(coordinator.calls) + [CallCas(expected, body)]
      ensures answer.CasWon? ==>
        && expected == old(|coordinator.record.history|) && coordinator.record.history == old(coordinator.record).history + [body]
        && coordinator.committed == old(coordinator.committed) + [|coordinator.record.history|] && CachesLatest(SharedState, now)
      ensures !answer.CasWon? ==> coordinator.committed == old(coordinator.committed)
    {
      answer := coordinator.DoCommitCas(me, expected, body);
      Receive();
      if answer.CasWon? { CacheLatest(SharedState, body, now); }
    }

    /** One pass of the optimistic loop: an attempt and, if it lost, the fetch of the winner's version. */
    method Round(make: Option<Content> -> Produced, now: int) returns (r: Attempted)
      requires Valid()
      modifies this, cache, coordinator
      ensures Valid() && old(coordinator.record).history <= coordinator.record.history
      ensures coordinator.answers == old(coordinator.answers) + if r.Posted? then [r.answer] else []
      ensures r == Posted(CasWon) ==>
        && MadeFromLast(make, coordinator.record.history) && CachesLatest(SharedState, now)
        && coordinator.committed == old(coordinator.committed) + [|coordinator.record.history|]
      ensures old(coordinator.calls) <= coordinator.calls
      ensures r != Posted(CasWon) ==> coordinator.committed == old(coordinator.committed)
      ensures r.Mismatched? ==> exists base :: !Claimed(make(base))
      ensures r.Posted? && r.answer.CasLost? ==> coordinator.calls != [] && coordinator.calls[|coordinator.calls| - 1] == CallFetch
    {
      r := Attempt(make, now);
      if r.Posted? && r.answer.CasLost? { var _ := Refresh(now); }
    }

    /** The optimistic loop. A win commits one version, derived from exactly the version before it; anything
        else commits nothing; and it goes on exactly while its posts lose and attempts are left. `answers` is what
        its posts were told. */
    method WriteCas(make: Option<Content> -> Produced, now: int) returns (outcome: CasOutcome, ghost answers: seq<CasAnswer>)
      requires Valid()
      modifies this, cache, coordinator
      ensures Valid() && old(coordinator.record).history <= coordinator.record.history
      ensures coordinator.answers == old(coordinator.answers) + answers && EndsRightly(answers, retries, outcome)
      ensures old(coordinator.calls) + FetchIf(NeedsFetch(old(View()), strategy, now)) <= coordinator.calls
      ensures match outcome
        case Ended(Won(v)) =>
          && v == |coordinator.record.history| && MadeFromLast(make, coordinator.record.history)
          && coordinator.committed == old(coordinator.committed) + [v] && CachesLatest(SharedState, now)
        case HashMismatch => coordinator.committed == old(coordinator.committed) && exists base :: !Claimed(make(base))
        case _ => coordinator.committed == old(coordinator.committed)
    {
      Freshen(now);
      outcome, answers := TryAll(make, now);
    }

    method TryAll(make: Option<Content> -> Produced, now: int) returns (outcome: CasOutcome, ghost answers: seq<CasAnswer>)
      requires Valid()
      modifies this, cache, coordinator
      ensures Valid() && old(coordinator.record).history <= coordinator.record.history && old(coordinator.calls) <= coordinator.calls
      ensures coordinator.answers == old(coordinator.answers) + answers && EndsRightly(answers, retries, outcome)
      ensures match outcome
        case Ended(Won(v)) =>
          && v == |coordinator.record.history| && MadeFromLast(make, coordinator.record.history)
          && coordinator.committed == old(coordinator.committed) + [v] && CachesLatest(SharedState, now)
        case HashMismatch => coordinator.committed == old(coordinator.committed) && exists base :: !Claimed(make(base))
        case _ => coordinator.committed == old(coordinator.committed)
    {
      var lastCurrent: int := -1;
      var maxAttempts := retries + 1;
      answers := [];
      for attempt := 0 to maxAttempts
        invariant Valid() && old(coordinator.record).history <= coordinator.record.history
        invariant coordinator.answers == old(coordinator.answers) + answers && |answers| == attempt && AllLost(answers)
        invariant lastCurrent == if answers == [] then -1 else answers[|answers| - 1].current
        invariant coordinator.committed == old(coordinator.committed) && old(coordinator.calls) <= coordinator.calls
      {
        var tried := Round(make, now);
        if tried.Mismatched? { return HashMismatch, answers; }
        LastOf(old(coordinator.answers), answers, tried.answer);
        answers := answers + [tried.answer];
        match tried.answer
        case CasLost(_, current) => lastCurrent := current;
        case CasRefused(refusal) => return Ended(Failed(refusal)), answers;
        case CasWon => return Ended(Won(|coordinator.record.history|)), answers;
      }
      return Ended(Exhausted(maxAttempts, lastCurrent)), answers;
    }

    /** A message may arrive here. */
    method Receive()
      requires Valid()
      modifies this, cache, coordinator`record
      ensures Valid() && coordinator.record.history == old(coordinator.record.history) && received == old(received) + 1
      ensures old(View()).entry.Some? ==> View().entry.Some?
      ensures var h := coordinator.record.history; old(content) == Some(h[|h| - 1]) ==> content == Some(h[|h| - 1])
    {
      Deliver();
    }

    /** One message of the event bus, if it is one that commits can have sent. It neither drops the entry nor loses the
        current body. */
    method Deliver()
      requires Valid()
      modifies this, cache, coordinator`record
      ensures Valid() && coordinator.record.history == old(coordinator.record.history) && received == old(received) + 1
      ensures (View(), coordinator.record) == AfterMail(old(View()), strategy, old(coordinator.record), me, mail(old(received)))
      ensures old(View()).entry.Some? ==> View().entry.Some?
      ensures var h := coordinator.record.history; old(content) == Some(h[|h| - 1]) ==> content == Some(h[|h| - 1])
    {
      var m := mail(received);
      received := received + 1;
      if !MintedFrom(coordinator.record.history, m) { return; }
      match m
      case Nothing =>
      case Signal(newVersion, issuer, tick) => HandleInvalidation(newVersion, issuer, tick);
      case Broadcast(version, body, writer, now) => HandleUpdate(version, body, now, writer);
      case Recovery(bound) => InvalidateAllCache(bound);
    }

    /** The coordinator decides first; a declined invalidation leaves the cache alone. */
    method HandleInvalidation(newVersion: int, issuer: Agent, tick: int)
      requires Valid() && newVersion <= |coordinator.record.history|
      modifies cache, coordinator`record
      ensures Valid() && coordinator.record == Invalidate(old(coordinator.record), me, newVersion, issuer)
      ensures View() == AfterInvalidation(old(View()), old(coordinator.record), me, newVersion, issuer, tick)
    {
      var declined := Obsolete(coordinator.record, me, newVersion, issuer);
      coordinator.record := Invalidate(coordinator.record, me, newVersion, issuer);
      if declined {
        return;
      }
      cache.Invalidate(id, Some(Max(newVersion - 1, 0)), tick);
    }

    /** Applied under the registry's lock, so one step: a stale broadcast or one against a live claim is dropped. */
    method HandleUpdate(version: int, body: Content, now: int, writer: Option<Agent>)
      requires Valid() && version <= |coordinator.record.history|
      requires version == |coordinator.record.history| ==> body == coordinator.record.history[version - 1]
      modifies this`content, cache, coordinator`record
      ensures Valid() && coordinator.record == Updated(old(coordinator.record), me, version, writer)
      ensures View() == AfterUpdate(old(View()), strategy, old(coordinator.record), me, version, body, now)
    {
      var lands := !(version < |coordinator.record.history| || Writes(StateOf(coordinator.record, me)));
      if lands {
        cache.Put(id, OnFetch(strategy, version, SharedState, now));
        content := Some(body);
        coordinator.record := SetState(coordinator.record, me, SharedState, ByUpdate);
      }
      coordinator.record := Cleared(coordinator.record, me);
      if writer.Some? {
        if lands {
          coordinator.record := SetState(coordinator.record, writer.value, SharedState, ByUpdate);
        }
        coordinator.record := Cleared(coordinator.record, writer.value);
      }
    }

    method InvalidateAllCache(bound: Option<int>)
      requires Valid()
      modifies cache
      ensures Valid() && View() == Recovered(old(View()), bound)
    {
      cache.InvalidateAll(bound);
    }
  }
}
