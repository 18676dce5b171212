/** The optimistic file write of one `CoherentVolume`: read the file, have the coordinator
    hash-check it under a fresh identity, derive the new bytes, commit by version, and only then
    replace the file. `Stage`, `Accepts` and `Next` describe one call; `CoherentVolume` is the
    code, proved to follow them against any file contents and any coordinator. */
module VolumeProtocol {
  import opened Foundations

  const MAX_CAS_REACQUIRES: nat := 8

  /** A `/hooks/post-edit-cas` body. */
  datatype Body = Body(ok: bool, reason: string, current: Option<nat>, denyReason: bool)

  datatype Verdict = Win | Lost | Refuse

  const CAS_RETRY_REASONS :=
    ["version_mismatch", "other_holder", "caller_in_transient_state", "stale_read_generation"]

  function ClassifyCasResponse(resp: Body): Verdict {
    if resp.ok then Win else if resp.reason in CAS_RETRY_REASONS then Lost else Refuse
  }

  datatype PreReadReply = PreRead(version: nat, denied: bool) | PreReadFault

  datatype Exchange =
    | LoadFile(loaded: Option<Bytes>)
    | AskPreRead(session: Session, hash: Digest, pre: PreReadReply)
    | AskCas(session: Session, expected: nat, hash: Digest, resp: Option<Body>)
    | ReplaceFile(bytes: Bytes, done: bool)

  /** `read`, `write_cas` and `write_cas_at`. */
  datatype Op = Look | Update(make: Bytes -> Bytes) | At(expected: nat, content: Bytes)

  /** The bytes an operation wants in place of `base`. */
  function Derive(op: Op, base: Bytes): Bytes {
    match op
    case Look => base
    case Update(make) => make(base)
    case At(_, content) => content
  }

  datatype Outcome =
    | Seen(bytes: Bytes) | Landed(version: nat) | FileMissing | ViewWedged | StaleView | CommitUnconfirmed
    | RetriesExhausted(attempts: nat, lastCurrent: int) | VersionConflict(current: nat) | CoherenceFailure | IoFailure

  datatype Control = Control(session: Session, attempts: nat, denied: nat, lastCurrent: int)

  datatype Stage =
    | Loading(c: Control)
    | Registering(c: Control, data: Bytes)
    | Posting(c: Control, base: Bytes, version: nat)
    | Replacing(c: Control, base: Bytes, version: nat)
    | Done(outcome: Outcome)

  function Remint(s: Session): Session { s.(mint := s.mint + 1) }

  predicate Accepts(op: Op, s: Stage, x: Exchange) {
    match s
    case Loading(_) => x.LoadFile?
    case Registering(c, data) => x.AskPreRead? && x.session == c.session && x.hash == Sha256(data)
    case Posting(c, base, version) =>
      x.AskCas? && x.session == c.session && x.expected == version && x.hash == Sha256(Derive(op, base))
    case Replacing(_, base, _) => x.ReplaceFile? && x.bytes == Derive(op, base)
    case Done(_) => false
  }

  function AfterPreRead(op: Op, c: Control, data: Bytes, version: nat, denied: bool): Stage {
    match op
    case Look => Done(Seen(data))
    case Update(_) =>
      if denied then
        var c' := c.(lastCurrent := if version > c.lastCurrent then version else c.lastCurrent, denied := c.denied + 1);
        if c'.denied > MAX_CAS_REACQUIRES then Done(ViewWedged) else Loading(c'.(session := Remint(c.session)))
      else Posting(c.(denied := 0), data, version)
    case At(expected, _) =>
      if denied then Done(ViewWedged)
      else if version != expected then Done(VersionConflict(version))
      else Posting(c.(denied := 0), data, version)
  }

  function AfterRefusal(op: Op, resp: Body): Outcome {
    if resp.reason == "commit_unconfirmed" then CommitUnconfirmed
    else if op.Update? && resp.denyReason then StaleView
    else CoherenceFailure
  }

  function AfterCas(op: Op, c: Control, base: Bytes, version: nat, resp: Option<Body>): Stage {
    if resp.None? then Done(CommitUnconfirmed)
    else
      match ClassifyCasResponse(resp.value)
      case Win => Replacing(c, base, version)
      case Refuse => Done(AfterRefusal(op, resp.value))
      case Lost =>
        var current := resp.value.current;
        if !op.Update? then Done(VersionConflict(if current.Some? then current.value else version))
        else
          var c' := c.(attempts := c.attempts + 1, lastCurrent := if current.Some? then current.value else c.lastCurrent);
          if c'.attempts >= MAX_CAS_REACQUIRES + 1 then Done(RetriesExhausted(c'.attempts, c'.lastCurrent))
          else Loading(c'.(session := Remint(c.session)))
  }

  function Next(op: Op, s: Stage, x: Exchange): Stage
    requires Accepts(op, s, x)
  {
    match s
    case Loading(c) => if x.loaded.None? then Done(FileMissing) else Registering(c, x.loaded.value)
    case Registering(c, data) =>
      if x.pre.PreReadFault? then Done(CoherenceFailure) else AfterPreRead(op, c, data, x.pre.version, x.pre.denied)
    case Posting(c, base, version) => AfterCas(op, c, base, version, x.resp)
    case Replacing(_, _, version) => Done(if x.done then Landed(version + 1) else IoFailure)
  }

  predicate Conforms(op: Op, s: Stage, xs: seq<Exchange>, t: Stage)
    decreases |xs|
  {
    if xs == [] then s == t
    else Accepts(op, s, xs[0]) && Conforms(op, Next(op, s, xs[0]), xs[1..], t)
  }

  lemma {:induction false} ConformsThen(op: Op, s: Stage, xs: seq<Exchange>, x: Exchange, t: Stage)
    requires Conforms(op, s, xs, t) && Accepts(op, t, x)
    ensures Conforms(op, s, xs + [x], Next(op, t, x))
    decreases |xs|
  {
    if xs == [] {
      assert xs + [x] == [x];
      assert [x][1..] == [];
    } else {
      assert (xs + [x])[1..] == xs[1..] + [x];
      ConformsThen(op, Next(op, s, xs[0]), xs[1..], x, t);
    }
  }

  // ----- budgets -----

  function Loads(xs: seq<Exchange>): nat {
    if xs == [] then 0 else (if xs[0].LoadFile? then 1 else 0) + Loads(xs[1..])
  }

  function Posts(xs: seq<Exchange>): nat {
    if xs == [] then 0 else (if xs[0].AskCas? then 1 else 0) + Posts(xs[1..])
  }

  function Replaces(xs: seq<Exchange>): nat {
    if xs == [] then 0 else (if xs[0].ReplaceFile? then 1 else 0) + Replaces(xs[1..])
  }

  /** The two budgets of the retry loop are within bounds. */
  predicate InBudget(s: Stage) {
    s.Done? || (s.c.attempts <= MAX_CAS_REACQUIRES && s.c.denied <= MAX_CAS_REACQUIRES
                && ((s.Posting? || s.Replacing?) ==> s.c.denied == 0))
  }

  function PostsLeft(s: Stage): int {
    match s
    case Loading(c) => MAX_CAS_REACQUIRES + 1 - c.attempts
    case Registering(c, _) => MAX_CAS_REACQUIRES + 1 - c.attempts
    case Posting(c, _, _) => MAX_CAS_REACQUIRES + 1 - c.attempts
    case _ => 0
  }

  /** Lexicographic budget as one number: nine denied reads for each post still possible. */
  function LoadsLeft(s: Stage): int {
    match s
    case Loading(c) => (MAX_CAS_REACQUIRES - c.attempts) * 9 + 9 - c.denied
    case Registering(c, _) => (MAX_CAS_REACQUIRES - c.attempts) * 9 + 8 - c.denied
    case Posting(c, _, _) => (MAX_CAS_REACQUIRES - c.attempts) * 9
    case _ => 0
  }

  function ReplacesLeft(s: Stage): nat { if s.Done? then 0 else 1 }

  /** Against any coordinator and any file contents one call makes at most 9 commit attempts and at
      most 81 comparand reads, and replaces the file at most once. */
  lemma {:induction false} WriteBudget(op: Op, s: Stage, xs: seq<Exchange>, t: Stage)
    requires Conforms(op, s, xs, t) && InBudget(s)
    ensures InBudget(t)
    ensures Posts(xs) + PostsLeft(t) <= PostsLeft(s)
    ensures Loads(xs) + LoadsLeft(t) <= LoadsLeft(s)
    ensures Replaces(xs) + ReplacesLeft(t) <= ReplacesLeft(s)
    decreases |xs|
  {
    if xs != [] {
      WriteBudget(op, Next(op, s, xs[0]), xs[1..], t);
    }
  }

  /** So for a whole call; and a write at a given version has one post and one comparand read. */
  lemma WholeWriteBudget(op: Op, session: Session, xs: seq<Exchange>, t: Stage)
    requires Conforms(op, Loading(Control(session, 0, 0, -1)), xs, t)
    ensures Posts(xs) <= 9 && Loads(xs) <= 81 && Replaces(xs) <= 1
    ensures op.At? ==> Posts(xs) <= 1 && Loads(xs) <= 1
  {
    WriteBudget(op, Loading(Control(session, 0, 0, -1)), xs, t);
    if op.At? { SingleAttempt(op, Loading(Control(session, 0, 0, -1)), xs, t); }
  }

  lemma {:induction false} SingleAttempt(op: Op, s: Stage, xs: seq<Exchange>, t: Stage)
    requires op.At? && Conforms(op, s, xs, t)
    ensures Posts(xs) <= if s.Done? || s.Replacing? then 0 else 1
    ensures Loads(xs) <= if s.Loading? then 1 else 0
    decreases |xs|
  {
    if xs != [] { SingleAttempt(op, Next(op, s, xs[0]), xs[1..], t); }
  }

  /** A call reports success exactly when it replaced the file. */
  lemma {:induction false} LandedMeansReplaced(op: Op, s: Stage, xs: seq<Exchange>, o: Outcome)
    requires Conforms(op, s, xs, Done(o)) && !s.Done?
    ensures o.Landed? <==> exists x :: x in xs && x.ReplaceFile? && x.done
    decreases |xs|
  {
    var next := Next(op, s, xs[0]);
    assert forall x :: x in xs <==> x == xs[0] || x in xs[1..];
    if next.Done? {
      assert xs[1..] == [];
    } else {
      LandedMeansReplaced(op, next, xs[1..], o);
    }
  }

  /** The file is replaced only right after a confirmed win, with bytes derived from the very bytes whose
      hash the coordinator accepted at the version that was committed. */
  ghost predicate BackedByWin(op: Op, xs: seq<Exchange>, i: nat)
    requires i < |xs| && xs[i].ReplaceFile?
  {
    && i >= 3
    && xs[i - 3].LoadFile? && xs[i - 3].loaded.Some?
    && var base := xs[i - 3].loaded.value;
    && xs[i].bytes == Derive(op, base)
    && xs[i - 2].AskPreRead? && xs[i - 2].hash == Sha256(base) && xs[i - 2].pre.PreRead? && !xs[i - 2].pre.denied
    && xs[i - 1].AskCas? && xs[i - 1].hash == Sha256(xs[i].bytes) && xs[i - 1].resp.Some? && xs[i - 1].resp.value.ok
    && xs[i - 1].expected == xs[i - 2].pre.version && xs[i - 1].session == xs[i - 2].session
  }

  /** How the last calls before stage `s` look. */
  ghost predicate Trail(op: Op, s: Stage, xs: seq<Exchange>) {
    var n := |xs|;
    match s
    case Registering(_, data) => n >= 1 && xs[n - 1] == LoadFile(Some(data))
    case Posting(c, base, version) =>
      n >= 2 && xs[n - 2] == LoadFile(Some(base)) && xs[n - 1] == AskPreRead(c.session, Sha256(base), PreRead(version, false))
    case Replacing(c, base, version) =>
      n >= 3 && xs[n - 3] == LoadFile(Some(base)) && xs[n - 2] == AskPreRead(c.session, Sha256(base), PreRead(version, false))
      && xs[n - 1].AskCas? && xs[n - 1].session == c.session && xs[n - 1].expected == version
      && xs[n - 1].hash == Sha256(Derive(op, base)) && xs[n - 1].resp.Some? && xs[n - 1].resp.value.ok
    case _ => true
  }

  lemma {:induction false} ReplaceOnlyAfterWin(op: Op, s: Stage, before: seq<Exchange>, xs: seq<Exchange>, t: Stage)
    requires Trail(op, s, before) && Conforms(op, s, xs, t)
    requires forall i :: 0 <= i < |before| && before[i].ReplaceFile? ==> BackedByWin(op, before, i)
    ensures forall i :: 0 <= i < |before + xs| && (before + xs)[i].ReplaceFile? ==> BackedByWin(op, before + xs, i)
    decreases |xs|
  {
    if xs == [] {
      assert before + xs == before;
    } else {
      var mid := before + [xs[0]];
      assert forall i :: 0 <= i < |before| ==> mid[i] == before[i];
      ReplaceOnlyAfterWin(op, Next(op, s, xs[0]), mid, xs[1..], t);
      assert mid + xs[1..] == before + xs;
    }
  }

  /** No two comparand reads of one call run under the same identity, so every one after the first is
      made by a session the coordinator has never seen. */
  lemma {:induction false} FreshIdentities(op: Op, s: Stage, xs: seq<Exchange>, t: Stage)
    requires Conforms(op, s, xs, t) && !s.Done?
    ensures forall i :: 0 <= i < |xs| && xs[i].AskPreRead? ==>
      xs[i].session.agent == s.c.session.agent && xs[i].session.mint >= s.c.session.mint + (if s.Posting? || s.Replacing? then 1 else 0)
    ensures forall i, j :: 0 <= i < j < |xs| && xs[i].AskPreRead? && xs[j].AskPreRead? ==>
      xs[i].session.mint < xs[j].session.mint
    decreases |xs|
  {
    if xs != [] {
      var next := Next(op, s, xs[0]);
      if next.Done? {
        assert xs[1..] == [];
      } else {
        FreshIdentities(op, next, xs[1..], t);
        assert forall i :: 0 < i < |xs| ==> xs[i] == xs[1..][i - 1];
      }
    }
  }

  lemma {:induction false} PostsThen(xs: seq<Exchange>, x: Exchange)
    ensures Posts(xs + [x]) == Posts(xs) + (if x.AskCas? then 1 else 0)
  {
    if xs != [] {
      assert (xs + [x])[1..] == xs[1..] + [x];
      PostsThen(xs[1..], x);
    } else {
      assert [x][1..] == [];
    }
  }

  // ----- how a call ends, read off its transcript -----

  /** The answers after which the loop tries again. */
  predicate Retryable(reason: string) {
    reason == "version_mismatch" || reason == "other_holder" || reason == "caller_in_transient_state" || reason == "stale_read_generation"
  }

  predicate LostPost(x: Exchange) { x.AskCas? && x.resp.Some? && !x.resp.value.ok && Retryable(x.resp.value.reason) }

  predicate DeniedRead(x: Exchange) { x.AskPreRead? && x.pre.PreRead? && x.pre.denied }

  function Losses(xs: seq<Exchange>): nat {
    if xs == [] then 0 else Losses(xs[..|xs| - 1]) + if LostPost(xs[|xs| - 1]) then 1 else 0
  }

  /** The number of comparand reads at the end that were all denied. */
  function Streak(xs: seq<Exchange>): nat {
    if xs == [] then 0
    else if xs[|xs| - 1].LoadFile? then Streak(xs[..|xs| - 1])
    else if DeniedRead(xs[|xs| - 1]) then Streak(xs[..|xs| - 1]) + 1
    else 0
  }

  /** The latest version the coordinator has told of: by a lost post, or by a denied read that reports a newer one. */
  function LastKnown(xs: seq<Exchange>): int {
    if xs == [] then -1
    else
      var before, last := LastKnown(xs[..|xs| - 1]), xs[|xs| - 1];
      if LostPost(last) && last.resp.value.current.Some? then last.resp.value.current.value
      else if DeniedRead(last) && last.pre.version > before then last.pre.version
      else before
  }

  /** A post the coordinator rejects for good. */
  predicate Rejected(x: Exchange) { x.AskCas? && x.resp.Some? && !x.resp.value.ok && !Retryable(x.resp.value.reason) }

  /** What the last calls of an operation say about its outcome. */
  ghost predicate EndsWith(op: Op, xs: seq<Exchange>, o: Outcome) {
    var n := |xs|;
    && n > 0
    && var last := xs[n - 1];
    match o
    case Seen(bytes) => op.Look? && last.AskPreRead? && last.pre.PreRead? && n > 1 && xs[n - 2] == LoadFile(Some(bytes))
    case Landed(version) =>
      && last.ReplaceFile? && last.done && n > 1 && xs[n - 2].AskCas? && version == xs[n - 2].expected + 1
      && (op.At? ==> version == op.expected + 1)
    case IoFailure => last.ReplaceFile? && !last.done
    case FileMissing => last == LoadFile(None)
    case ViewWedged => DeniedRead(last) && (op.At? || (op.Update? && Streak(xs) == 9))
    case RetriesExhausted(attempts, current) =>
      op.Update? && LostPost(last) && attempts == 9 == Losses(xs) == Posts(xs) && current == LastKnown(xs)
    case VersionConflict(current) =>
      && op.At?
      && ((last.AskPreRead? && last.pre == PreRead(current, false) && current != op.expected)
          || (LostPost(last) && current == if last.resp.value.current.Some? then last.resp.value.current.value else last.expected))
    case CommitUnconfirmed => (last.AskCas? && last.resp.None?) || (Rejected(last) && last.resp.value.reason == "commit_unconfirmed")
    case StaleView => Rejected(last) && last.resp.value.reason != "commit_unconfirmed" && op.Update? && last.resp.value.denyReason
    case CoherenceFailure =>
      || (last.AskPreRead? && last.pre.PreReadFault?)
      || (Rejected(last) && last.resp.value.reason != "commit_unconfirmed" && !(op.Update? && last.resp.value.denyReason))
  }

  /** The loop's counters are what the transcript counts. */
  ghost predicate Counted(op: Op, xs: seq<Exchange>, t: Stage) {
    if t.Done? then EndsWith(op, xs, t.outcome)
    else
      && t.c.attempts == Losses(xs) && t.c.denied == Streak(xs) && Trail(op, t, xs) && (op.Update? ==> t.c.lastCurrent == LastKnown(xs))
      && Posts(xs) == Losses(xs) + (if t.Replacing? then 1 else 0) && (t.Posting? || t.Replacing? ==> !op.Look? && (op.At? ==> t.version == op.expected))
  }

  lemma {:induction false} ConformsBefore(op: Op, s: Stage, xs: seq<Exchange>, t: Stage) returns (u: Stage)
    requires Conforms(op, s, xs, t) && xs != []
    ensures Conforms(op, s, xs[..|xs| - 1], u) && Accepts(op, u, xs[|xs| - 1]) && t == Next(op, u, xs[|xs| - 1])
    decreases |xs|
  {
    if |xs| == 1 {
      u := s;
    } else {
      u := ConformsBefore(op, Next(op, s, xs[0]), xs[1..], t);
      assert xs[1..][..|xs[1..]| - 1] == xs[..|xs| - 1][1..];
    }
  }

  lemma ReadCountsOn(op: Op, before: seq<Exchange>, u: Stage, x: Exchange)
    requires Counted(op, before, u) && InBudget(u) && Accepts(op, u, x) && (u.Loading? || u.Registering?)
    ensures Counted(op, before + [x], Next(op, u, x))
  {
    var xs := before + [x];
    assert xs[..|xs| - 1] == before && xs[|xs| - 1] == x;
    PostsThen(before, x);
  }

  lemma PostCountsOn(op: Op, before: seq<Exchange>, u: Stage, x: Exchange)
    requires Counted(op, before, u) && InBudget(u) && Accepts(op, u, x) && (u.Posting? || u.Replacing?)
    ensures Counted(op, before + [x], Next(op, u, x))
  {
    var xs := before + [x];
    assert xs[..|xs| - 1] == before && xs[|xs| - 1] == x;
    PostsThen(before, x);
  }

  lemma {:induction false} CountedAlong(op: Op, session: Session, xs: seq<Exchange>, t: Stage)
    requires Conforms(op, Loading(Control(session, 0, 0, -1)), xs, t)
    ensures Counted(op, xs, t)
    decreases |xs|
  {
    if xs != [] {
      var before := xs[..|xs| - 1];
      var u := ConformsBefore(op, Loading(Control(session, 0, 0, -1)), xs, t);
      CountedAlong(op, session, before, u);
      WriteBudget(op, Loading(Control(session, 0, 0, -1)), before, u);
      if u.Loading? || u.Registering? {
        ReadCountsOn(op, before, u, xs[|xs| - 1]);
      } else {
        PostCountsOn(op, before, u, xs[|xs| - 1]);
      }
      assert before + [xs[|xs| - 1]] == xs;
    }
  }

  /** Against any file contents and any coordinator every call ends as its transcript says. In particular an update gives up
      exactly after nine lost posts, or after nine denied comparand reads in a row, and never before. */
  lemma CallEndsExactly(op: Op, session: Session, xs: seq<Exchange>, o: Outcome)
    requires Conforms(op, Loading(Control(session, 0, 0, -1)), xs, Done(o))
    ensures EndsWith(op, xs, o)
    ensures op.Update? ==> (o.RetriesExhausted? <==> Losses(xs) == 9) && (o.ViewWedged? <==> Streak(xs) == 9)
  {
    CountedAlong(op, session, xs, Done(o));
    var u := ConformsBefore(op, Loading(Control(session, 0, 0, -1)), xs, Done(o));
    CountedAlong(op, session, xs[..|xs| - 1], u);
    WriteBudget(op, Loading(Control(session, 0, 0, -1)), xs[..|xs| - 1], u);
  }

  /** The transcript leaves no choice of outcome. */
  lemma EndIsUnique(op: Op, xs: seq<Exchange>, a: Outcome, b: Outcome)
    requires EndsWith(op, xs, a) && EndsWith(op, xs, b)
    ensures a == b
  {
  }

  // ----- the code -----

  /** The file system and the coordinator as one volume sees them: any answers, call by call. */
  class Host {
    const loads: nat -> Option<Bytes>
    const preReads: nat -> PreReadReply
    const responses: nat -> Option<Body>
    const replaced: nat -> bool
    var log: seq<Exchange>

    constructor (loads: nat -> Option<Bytes>, preReads: nat -> PreReadReply,
                 responses: nat -> Option<Body>, replaced: nat -> bool)
      ensures log == [] && this.loads == loads && this.preReads == preReads
      ensures this.responses == responses && this.replaced == replaced
    {
      this.loads, this.preReads, this.responses, this.replaced := loads, preReads, responses, replaced;
      log := [];
    }

    method Load() returns (r: Option<Bytes>)
      modifies this
      ensures r == loads(|old(log)|) && log == old(log) + [LoadFile(r)]
    {
      r := loads(|log|);
      log := log + [LoadFile(r)];
    }

    method PreRead(session: Session, hash: Digest) returns (r: PreReadReply)
      modifies this
      ensures r == preReads(|old(log)|) && log == old(log) + [AskPreRead(session, hash, r)]
    {
      r := preReads(|log|);
      log := log + [AskPreRead(session, hash, r)];
    }

    method PostEditCas(session: Session, expected: nat, hash: Digest) returns (r: Option<Body>)
      modifies this
      ensures r == responses(|old(log)|) && log == old(log) + [AskCas(session, expected, hash, r)]
    {
      r := responses(|log|);
      log := log + [AskCas(session, expected, hash, r)];
    }

    method Replace(bytes: Bytes) returns (done: bool)
      modifies this
      ensures done == replaced(|old(log)|) && log == old(log) + [ReplaceFile(bytes, done)]
    {
      done := replaced(|log|);
      log := log + [ReplaceFile(bytes, done)];
    }
  }

  /** The calls from `l0` to `l1` take an operation from stage `s` to stage `t`. */
  ghost predicate Followed(l0: seq<Exchange>, l1: seq<Exchange>, op: Op, s: Stage, t: Stage) {
    l0 <= l1 && Conforms(op, s, l1[|l0|..], t)
  }

  lemma FollowedCall(l0: seq<Exchange>, l1: seq<Exchange>, op: Op, s: Stage, t: Stage, x: Exchange)
    requires Followed(l0, l1, op, s, t) && Accepts(op, t, x)
    ensures Followed(l0, l1 + [x], op, s, Next(op, t, x))
  {
    assert (l1 + [x])[|l0|..] == l1[|l0|..] + [x];
    ConformsThen(op, s, l1[|l0|..], x, t);
  }

  datatype ReadOutcome = Comparand(data: Bytes, version: nat, denied: bool) | NoComparand(outcome: Outcome)

  datatype Attempt = Finished(outcome: Outcome) | LostRace(resp: Body)

  /** How one pass of the loop ends: with an outcome, or with the loop's variables for the next one. */
  datatype RoundEnd = Stop(outcome: Outcome) | Again(c: Control)

  ghost predicate SameElsewhere(rel: string, before: map<string, Digest>, after: map<string, Digest>) {
    forall p :: p != rel ==> (p in before <==> p in after) && (p in before ==> before[p] == after[p])
  }

  /** Only the entry of `rel` changed, and it is now `hash`. */
  ghost predicate Changed(rel: string, hash: Digest, before: map<string, Digest>, after: map<string, Digest>) {
    rel in after && after[rel] == hash && SameElsewhere(rel, before, after)
  }

  class CoherentVolume {
    const host: Host
    var session: Session
    var lastCommitted: map<string, Digest>
    var lastObserved: map<string, Digest>

    constructor (host: Host, session: Session)
      ensures this.host == host && this.session == session && lastCommitted == map[] && lastObserved == map[]
    {
      this.host, this.session := host, session;
      lastCommitted, lastObserved := map[], map[];
    }

    /** A fresh identity has committed nothing; what was seen on disk stays known. */
    method RemintIdentity()
      modifies this`session, this`lastCommitted
      ensures session == Remint(old(session)) && lastCommitted == map[]
    {
      session := Remint(session);
      lastCommitted := map[];
    }

    method RecordOwnWrite(rel: string, hash: Digest)
      modifies this`lastCommitted, this`lastObserved
      ensures lastCommitted == old(lastCommitted)[rel := hash] && lastObserved == old(lastObserved)[rel := hash]
    {
      lastCommitted := lastCommitted[rel := hash];
      lastObserved := lastObserved[rel := hash];
    }

    /** The comparand read moves the foreign-edit baseline whether or not its bytes reach the caller. */
    method ReadWithVersion(rel: string, ghost l0: seq<Exchange>, ghost op: Op, ghost s: Stage, ghost c: Control)
      returns (r: ReadOutcome)
      requires Followed(l0, host.log, op, s, Loading(c)) && c.session == session
      modifies this`lastObserved, host
      ensures r.Comparand? ==> Followed(l0, host.log, op, s, AfterPreRead(op, c, r.data, r.version, r.denied))
      ensures r.Comparand? ==> Changed(rel, Sha256(r.data), old(lastObserved), lastObserved)
      ensures r.NoComparand? ==> Followed(l0, host.log, op, s, Done(r.outcome)) && !r.outcome.Landed?
      ensures SameElsewhere(rel, old(lastObserved), lastObserved)
      ensures l0 <= old(host.log) <= host.log && Posts(host.log[|l0|..]) == Posts(old(host.log)[|l0|..])
    {
      ghost var h0 := host.log;
      var loaded := host.Load();
      FollowedCall(l0, h0, op, s, Loading(c), LoadFile(loaded));
      PostsThen(h0[|l0|..], LoadFile(loaded));
      assert host.log[|l0|..] == h0[|l0|..] + [LoadFile(loaded)];
      if loaded.None? { return NoComparand(FileMissing); }
      ghost var h1 := host.log;
      lastObserved := lastObserved[rel := Sha256(loaded.value)];
      var pre := host.PreRead(session, Sha256(loaded.value));
      ghost var x := AskPreRead(session, Sha256(loaded.value), pre);
      FollowedCall(l0, h1, op, s, Registering(c, loaded.value), x);
      PostsThen(h1[|l0|..], x);
      assert host.log[|l0|..] == h1[|l0|..] + [x];
      if pre.PreReadFault? { return NoComparand(CoherenceFailure); }
      return Comparand(loaded.value, pre.version, pre.denied);
    }

    /** One commit attempt: post by version, and replace the file only on a confirmed win. */
    method CommitThenReplace(rel: string, op: Op, data: Bytes, version: nat,
                             ghost base: Bytes, ghost l0: seq<Exchange>, ghost s: Stage, ghost c: Control)
      returns (r: Attempt)
      requires Followed(l0, host.log, op, s, Posting(c, base, version)) && c.session == session
      requires data == Derive(op, base)
      modifies this`lastCommitted, this`lastObserved, host
      ensures r.Finished? ==> Followed(l0, host.log, op, s, Done(r.outcome))
      ensures r.LostRace? ==> !r.resp.ok && r.resp.reason in CAS_RETRY_REASONS
      ensures r.LostRace? ==> Followed(l0, host.log, op, s, AfterCas(op, c, base, version, Some(r.resp)))
      ensures Posts(host.log[|l0|..]) == Posts(old(host.log)[|l0|..]) + 1
      ensures r.Finished? && r.outcome.Landed? ==> Changed(rel, Sha256(data), old(lastCommitted), lastCommitted)
      ensures r.Finished? && r.outcome.Landed? ==> Changed(rel, Sha256(data), old(lastObserved), lastObserved)
      ensures !(r.Finished? && r.outcome.Landed?) ==> lastCommitted == old(lastCommitted) && lastObserved == old(lastObserved)
    {
      ghost var h := host.log;
      var resp := host.PostEditCas(session, version, Sha256(data));
      ghost var x := AskCas(session, version, Sha256(data), resp);
      FollowedCall(l0, h, op, s, Posting(c, base, version), x);
      PostsThen(h[|l0|..], x);
      assert host.log[|l0|..] == h[|l0|..] + [x];
      if resp.None? { return Finished(CommitUnconfirmed); }
      match ClassifyCasResponse(resp.value) {
        case Lost => return LostRace(resp.value);
        case Refuse => return Finished(AfterRefusal(op, resp.value));
        case Win =>
          h := host.log;
          var done := host.Replace(data);
          FollowedCall(l0, h, op, s, Replacing(c, base, version), ReplaceFile(data, done));
          PostsThen(h[|l0|..], ReplaceFile(data, done));
          assert host.log[|l0|..] == h[|l0|..] + [ReplaceFile(data, done)];
          if !done { return Finished(IoFailure); }
          RecordOwnWrite(rel, Sha256(data));
          return Finished(Landed(version + 1));
      }
    }

    /** One pass of the retry loop: a comparand read and, unless it is denied, one commit attempt. */
    method Round(rel: string, make: Bytes -> Bytes, c: Control, ghost l0: seq<Exchange>, ghost start: Stage)
      returns (r: RoundEnd, made: bool)
      requires Followed(l0, host.log, Update(make), start, Loading(c)) && c.session == session
      requires c.attempts <= MAX_CAS_REACQUIRES && c.denied <= MAX_CAS_REACQUIRES
      modifies this, host
      ensures r.Stop? ==> Followed(l0, host.log, Update(make), start, Done(r.outcome)) && session == old(session)
      ensures r.Stop? && r.outcome.Landed? ==> rel in lastObserved && rel in lastCommitted && lastObserved[rel] == lastCommitted[rel]
      ensures r.Stop? && !r.outcome.Landed? ==> lastCommitted == old(lastCommitted)
      ensures r.Again? ==> Followed(l0, host.log, Update(make), start, Loading(r.c)) && r.c.session == session && lastCommitted == map[]
      ensures r.Again? ==> r.c.attempts <= MAX_CAS_REACQUIRES && r.c.denied <= MAX_CAS_REACQUIRES
      ensures r.Again? ==> r.c.attempts > c.attempts || (r.c.attempts == c.attempts && r.c.denied > c.denied)
      ensures SameElsewhere(rel, old(lastObserved), lastObserved)
      ensures Posts(host.log[|l0|..]) == Posts(old(host.log)[|l0|..]) + (if made then 1 else 0)
    {
      var op := Update(make);
      made := false;
      var read := ReadWithVersion(rel, l0, op, start, c);
      if read.NoComparand? { return Stop(read.outcome), made; }
      if read.denied {
        var lastCurrent := if read.version > c.lastCurrent then read.version else c.lastCurrent;
        if c.denied + 1 > MAX_CAS_REACQUIRES { return Stop(ViewWedged), made; }
        RemintIdentity();
        return Again(Control(session, c.attempts, c.denied + 1, lastCurrent)), made;
      }
      var data := make(read.data);
      made := true;
      var attempt := CommitThenReplace(rel, op, data, read.version, read.data, l0, start, c.(denied := 0));
      if attempt.Finished? { return Stop(attempt.outcome), made; }
      var lastCurrent := if attempt.resp.current.Some? then attempt.resp.current.value else c.lastCurrent;
      if c.attempts + 1 >= MAX_CAS_REACQUIRES + 1 { return Stop(RetriesExhausted(c.attempts + 1, lastCurrent)), made; }
      RemintIdentity();
      return Again(Control(session, c.attempts + 1, 0, lastCurrent)), made;
    }

    /** The retry loop. `makes` counts the calls of `make`: one for each commit attempt. */
    method WriteCas(rel: string, make: Bytes -> Bytes) returns (o: Outcome, makes: nat)
      modifies this, host
      ensures Followed(old(host.log), host.log, Update(make), Loading(Control(old(session), 0, 0, -1)), Done(o))
      ensures EndsWith(Update(make), host.log[|old(host.log)|..], o)
      ensures makes == Posts(host.log[|old(host.log)|..])
      ensures o.Landed? ==> rel in lastObserved && rel in lastCommitted && lastObserved[rel] == lastCommitted[rel]
      ensures !o.Landed? && session != old(session) ==> lastCommitted == map[]
      ensures SameElsewhere(rel, old(lastObserved), lastObserved)
    {
      ghost var l0, start := host.log, Loading(Control(session, 0, 0, -1));
      var c := Control(session, 0, 0, -1);
      makes := 0;
      while true
        invariant Followed(l0, host.log, Update(make), start, Loading(c)) && c.session == session
        invariant c.attempts <= MAX_CAS_REACQUIRES && c.denied <= MAX_CAS_REACQUIRES
        invariant makes == Posts(host.log[|l0|..])
        invariant session != old(session) ==> lastCommitted == map[]
        invariant SameElsewhere(rel, old(lastObserved), lastObserved)
        decreases MAX_CAS_REACQUIRES - c.attempts, MAX_CAS_REACQUIRES - c.denied
      {
        var end, made := Round(rel, make, c, l0, start);
        if made { makes := makes + 1; }
        if end.Stop? {
          CallEndsExactly(Update(make), start.c.session, host.log[|l0|..], end.outcome);
          return end.outcome, makes;
        }
        c := end.c;
      }
    }

    /** The single-shot form: commit these bytes at this version or report why not. */
    method WriteCasAt(rel: string, expected: nat, content: Bytes) returns (o: Outcome)
      modifies this, host
      ensures session == Remint(old(session))
      ensures Followed(old(host.log), host.log, At(expected, content), Loading(Control(session, 0, 0, -1)), Done(o))
      ensures EndsWith(At(expected, content), host.log[|old(host.log)|..], o)
      ensures o.Landed? ==> Changed(rel, Sha256(content), map[], lastCommitted)
      ensures !o.Landed? ==> lastCommitted == map[]
    {
      ghost var l0 := host.log;
      var op := At(expected, content);
      RemintIdentity();
      ghost var c := Control(session, 0, 0, -1);
      o := AttemptAt(rel, expected, content, l0, c);
      CallEndsExactly(op, session, host.log[|l0|..], o);
    }

    method AttemptAt(rel: string, expected: nat, content: Bytes, ghost l0: seq<Exchange>, ghost c: Control) returns (o: Outcome)
      requires host.log == l0 && c == Control(session, 0, 0, -1) && lastCommitted == map[]
      modifies this`lastCommitted, this`lastObserved, host
      ensures Followed(l0, host.log, At(expected, content), Loading(c), Done(o))
      ensures o.Landed? ==> Changed(rel, Sha256(content), map[], lastCommitted)
      ensures !o.Landed? ==> lastCommitted == map[]
    {
      var op := At(expected, content);
      var read := ReadWithVersion(rel, l0, op, Loading(c), c);
      if read.NoComparand? { return read.outcome; }
      if read.denied { return ViewWedged; }
      if read.version != expected { return VersionConflict(read.version); }
      var attempt := CommitThenReplace(rel, op, content, expected, read.data, l0, Loading(c), c);
      if attempt.Finished? { return attempt.outcome; }
      return VersionConflict(if attempt.resp.current.Some? then attempt.resp.current.value else read.version);
    }
  }
}
