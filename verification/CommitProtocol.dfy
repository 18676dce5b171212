/** The two-part commit of one agent: pull-invalidation check, store write, coordinator bump.
    `Stage`, `Accepts` and `Next` say which call the commit makes next and where each
    answer takes it; `CoordinatedSubstrate` is the code, proved to follow them against any
    store and any coordinator. */
module CommitProtocol {
  import opened Foundations
  import opened ForeignStore

  datatype PreReadReply =
    | PreRead(version: nat, denied: bool, hashDiffers: bool, priorSeen: Option<nat>)
    | PreReadFault

  datatype CasReply = Written(token: Token) | Conflicted | Unknown | CasFault

  datatype ReconcileReply = Decided(d: Decision) | ReconcileFault

  datatype BumpReply = BumpWin(version: nat) | BumpConflict(current: Option<nat>) | BumpUnconfirmed | BumpRejected

  /** One call together with the answer it got. */
  datatype Exchange =
    | AskPreRead(hash: Option<Digest>, pre: PreReadReply)
    | AskCas(expected: Token, bytes: Bytes, cas: CasReply)
    | AskReconcile(held: Token, intended: Digest, decision: ReconcileReply)
    | AskBump(version: nat, recorded: Digest, bump: BumpReply)
    | AskLoad(loaded: Option<(Bytes, Token)>)

  datatype Outcome =
    | Committed(version: nat, converged: bool, noop: bool)
    | StaleView | ViewWedged | CasVersionConflict | CommitUnconfirmed | Failed

  datatype Pending = Pending(token: Token, bytes: Bytes, version: nat)

  datatype Stage =
    | Checking(token: Token, bytes: Bytes, observed: Option<Digest>)
    | Writing(p: Pending)
    | Settling(p: Pending)
    | Redriving(p: Pending, under: Token)
    | Resettling(p: Pending)
    | Bumping(p: Pending, converged: bool)
    | Confirming(p: Pending, current: Option<nat>)
    | Done(outcome: Outcome)

  /** A deny is a peer invalidation when the caller last saw a strictly older version. */
  predicate PeerInvalidation(version: nat, priorSeen: Option<nat>) {
    priorSeen.Some? && priorSeen.value < version
  }

  function DenyOutcome(version: nat, priorSeen: Option<nat>): Outcome {
    if PeerInvalidation(version, priorSeen) then StaleView else ViewWedged
  }

  predicate Accepts(s: Stage, x: Exchange) {
    match s
    case Checking(_, _, observed) => x.AskPreRead? && x.hash == observed
    case Writing(p) => x.AskCas? && x.expected == p.token && x.bytes == p.bytes
    case Settling(p) => x.AskReconcile? && x.held == p.token && x.intended == Sha256(p.bytes)
    case Redriving(p, under) => x.AskCas? && x.expected == under && x.bytes == p.bytes
    case Resettling(p) => x.AskReconcile? && x.held == p.token && x.intended == Sha256(p.bytes)
    case Bumping(p, _) => x.AskBump? && x.version == p.version && x.recorded == Sha256(p.bytes)
    case Confirming(p, _) => x.AskPreRead? && x.hash == Some(Sha256(p.bytes))
    case Done(_) => false
  }

  function Next(s: Stage, x: Exchange): Stage
    requires Accepts(s, x)
  {
    match s
    case Checking(token, bytes, observed) =>
      (match x.pre
       case PreReadFault => Done(Failed)
       case PreRead(version, denied, _, priorSeen) =>
         if denied then Done(DenyOutcome(version, priorSeen))
         else if observed == Some(Sha256(bytes)) then Done(Committed(version, false, true))
         else Writing(Pending(token, bytes, version)))
    case Writing(p) =>
      (match x.cas
       case Written(_) => Bumping(p, false)
       case Conflicted => Done(CasVersionConflict)
       case Unknown => Settling(p)
       case CasFault => Done(Failed))
    case Settling(p) =>
      (match x.decision
       case ReconcileFault => Done(Failed)
       case Decided(d) =>
         if d.verdict.Hold? then Done(ViewWedged)
         else if d.verdict.Converge? then Bumping(p, true)
         else if d.verdict.ReDrive? && d.token.Some? then Redriving(p, d.token.value)
         else Done(CasVersionConflict))
    case Redriving(p, _) =>
      (match x.cas
       case Written(_) => Bumping(p, false)
       case Conflicted => Resettling(p)
       case Unknown => Done(CommitUnconfirmed)
       case CasFault => Done(Failed))
    case Resettling(p) =>
      (match x.decision
       case ReconcileFault => Done(Failed)
       case Decided(d) => if d.verdict.Converge? then Bumping(p, true) else Done(CasVersionConflict))
    case Bumping(p, converged) =>
      (match x.bump
       case BumpWin(version) => Done(Committed(version, converged, false))
       case BumpConflict(current) => if converged then Confirming(p, current) else Done(CasVersionConflict)
       case BumpUnconfirmed => Done(CommitUnconfirmed)
       case BumpRejected => Done(Failed))
    case Confirming(p, current) =>
      (match x.pre
       case PreReadFault => Done(Failed)
       case PreRead(_, _, hashDiffers, _) =>
         if hashDiffers then Done(CasVersionConflict)
         else Done(Committed(if current.Some? && current.value != 0 then current.value else p.version, true, false)))
  }

  /** The calls `xs` take a commit from stage `s` to stage `t`. */
  predicate Conforms(s: Stage, xs: seq<Exchange>, t: Stage)
    decreases |xs|
  {
    if xs == [] then s == t
    else Accepts(s, xs[0]) && Conforms(Next(s, xs[0]), xs[1..], t)
  }

  lemma ConformsStep(s: Stage, x: Exchange, xs: seq<Exchange>, t: Stage)
    requires Accepts(s, x) && Conforms(Next(s, x), xs, t)
    ensures Conforms(s, [x] + xs, t)
  {
    assert ([x] + xs)[1..] == xs;
  }

  // ----- what every conforming call sequence keeps -----

  function StoreWrites(xs: seq<Exchange>): nat {
    if xs == [] then 0 else (if xs[0].AskCas? then 1 else 0) + StoreWrites(xs[1..])
  }

  function Bumps(xs: seq<Exchange>): nat {
    if xs == [] then 0 else (if xs[0].AskBump? then 1 else 0) + Bumps(xs[1..])
  }

  /** The store writes a commit may still issue. */
  function WritesLeft(s: Stage): nat {
    match s
    case Checking(_, _, _) => 2
    case Writing(_) => 2
    case Settling(_) => 1
    case Redriving(_, _) => 1
    case _ => 0
  }

  function BumpsLeft(s: Stage): nat {
    if s.Confirming? || s.Done? then 0 else 1
  }

  function CallsLeft(s: Stage): nat {
    match s
    case Checking(_, _, _) => 7
    case Writing(_) => 6
    case Settling(_) => 5
    case Redriving(_, _) => 4
    case Resettling(_) => 3
    case Bumping(_, _) => 2
    case Confirming(_, _) => 1
    case Done(_) => 0
  }

  /** The store said the intended bytes are there: a win, or a re-read that found them. */
  predicate Vouches(x: Exchange) {
    || (x.AskCas? && x.cas.Written?)
    || (x.AskReconcile? && x.decision.Decided? && x.decision.d.verdict.Converge?)
  }

  /** A RE_DRIVE verdict reports the held token as unmoved. */
  predicate HonestRedrive(x: Exchange) {
    x.AskReconcile? && x.decision.Decided? && x.decision.d.verdict.ReDrive? ==>
      x.decision.d.token == Some(x.held)
  }

  /** The token and bytes a commit was called with, once it is past its check. */
  ghost predicate Intends(s: Stage, token: Token, bytes: Bytes) {
    match s
    case Checking(t, b, _) => t == token && b == bytes
    case Writing(p) => p.token == token && p.bytes == bytes
    case Settling(p) => p.token == token && p.bytes == bytes
    case Redriving(p, under) => p.token == token && p.bytes == bytes && under == token
    case Resettling(p) => p.token == token && p.bytes == bytes
    case Bumping(p, _) => p.token == token && p.bytes == bytes
    case Confirming(p, _) => p.token == token && p.bytes == bytes
    case Done(_) => true
  }

  /** Every commit is over after at most seven calls, of which at most two write the store and
      at most one bumps the coordinator. */
  lemma {:induction false} CommitBudget(s: Stage, xs: seq<Exchange>, t: Stage)
    requires Conforms(s, xs, t)
    ensures StoreWrites(xs) + WritesLeft(t) <= WritesLeft(s)
    ensures Bumps(xs) + BumpsLeft(t) <= BumpsLeft(s)
    ensures |xs| + CallsLeft(t) <= CallsLeft(s)
    decreases |xs|
  {
    if xs != [] {
      CommitBudget(Next(s, xs[0]), xs[1..], t);
    }
  }

  /** Every store write of a commit, the re-drive included, carries the token and the bytes the
      caller passed; every bump records their hash. */
  lemma {:induction false} WritesUnderCallersToken(s: Stage, xs: seq<Exchange>, t: Stage, token: Token, bytes: Bytes)
    requires Conforms(s, xs, t) && Intends(s, token, bytes)
    requires forall x :: x in xs ==> HonestRedrive(x)
    ensures forall x :: x in xs && x.AskCas? ==> x.expected == token && x.bytes == bytes
    ensures forall x :: x in xs && x.AskBump? ==> x.recorded == Sha256(bytes)
    decreases |xs|
  {
    if xs != [] {
      assert HonestRedrive(xs[0]);
      WritesUnderCallersToken(Next(s, xs[0]), xs[1..], t, token, bytes);
    }
  }

  /** Which calls must lie behind a stage: past the store leg, a vouching answer. */
  ghost predicate Vouched(s: Stage, xs: seq<Exchange>) {
    (s.Bumping? || s.Confirming?) ==> exists x :: x in xs && Vouches(x)
  }

  /** The coordinator is asked to bump only once the store has vouched for the bytes, and
      a commit reports success (other than "unchanged") only after the coordinator either took that
      bump or, for a converged write, already recorded the same hash. */
  lemma {:induction false} BumpOnlyAfterStore(s: Stage, before: seq<Exchange>, xs: seq<Exchange>, t: Stage)
    requires Vouched(s, before) && Conforms(s, xs, t)
    ensures Vouched(t, before + xs)
    ensures forall i :: 0 <= i < |xs| && xs[i].AskBump? ==> exists x :: x in before + xs[..i] && Vouches(x)
    ensures !s.Done? && t.Done? && t.outcome.Committed? && !t.outcome.noop ==>
      && (exists x :: x in before + xs && Vouches(x))
      && var last := xs[|xs| - 1];
         || (last.AskBump? && last.bump == BumpWin(t.outcome.version))
         || (t.outcome.converged && last.AskPreRead? && last.pre.PreRead? && !last.pre.hashDiffers)
    decreases |xs|
  {
    if xs == [] {
      assert before + xs == before;
    } else {
      var next, mid := Next(s, xs[0]), before + [xs[0]];
      assert Vouched(next, mid) by {
        assert xs[0] in mid;
        assert forall x :: x in before ==> x in mid;
      }
      BumpOnlyAfterStore(next, mid, xs[1..], t);
      assert mid + xs[1..] == before + xs;
      forall i | 0 <= i < |xs| && xs[i].AskBump?
        ensures exists x :: x in before + xs[..i] && Vouches(x)
      {
        if i == 0 {
          assert before + xs[..0] == before;
        } else {
          assert mid + xs[1..][..i - 1] == before + xs[..i];
          assert xs[1..][i - 1] == xs[i];
        }
      }
      if next.Done? {
        assert xs[1..] == [];
      }
    }
  }

  // ----- the code -----

  /** The store and coordinator as one agent sees them: any answers at all, call by call. */
  class Wire {
    const preReads: nat -> PreReadReply
    const writes: nat -> CasReply
    const decisions: nat -> ReconcileReply
    const bumps: nat -> BumpReply
    const loads: nat -> Option<(Bytes, Token)>
    var log: seq<Exchange>

    constructor (preReads: nat -> PreReadReply, writes: nat -> CasReply, decisions: nat -> ReconcileReply,
                 bumps: nat -> BumpReply, loads: nat -> Option<(Bytes, Token)>)
      ensures log == []
      ensures this.preReads == preReads && this.writes == writes && this.decisions == decisions
      ensures this.bumps == bumps && this.loads == loads
    {
      this.preReads, this.writes, this.decisions := preReads, writes, decisions;
      this.bumps, this.loads := bumps, loads;
      log := [];
    }

    method PreRead(hash: Option<Digest>) returns (r: PreReadReply)
      modifies this
      ensures r == preReads(|old(log)|) && log == old(log) + [AskPreRead(hash, r)]
    {
      r := preReads(|log|);
      log := log + [AskPreRead(hash, r)];
    }

    method CasWrite(expected: Token, bytes: Bytes) returns (r: CasReply)
      modifies this
      ensures r == writes(|old(log)|) && log == old(log) + [AskCas(expected, bytes, r)]
    {
      r := writes(|log|);
      log := log + [AskCas(expected, bytes, r)];
    }

    method ReconcileAfterUnknown(held: Token, intended: Digest) returns (r: ReconcileReply)
      modifies this
      ensures r == decisions(|old(log)|) && log == old(log) + [AskReconcile(held, intended, r)]
    {
      r := decisions(|log|);
      log := log + [AskReconcile(held, intended, r)];
    }

    method CommitCas(version: nat, hash: Digest) returns (r: BumpReply)
      modifies this
      ensures r == bumps(|old(log)|) && log == old(log) + [AskBump(version, hash, r)]
    {
      r := bumps(|log|);
      log := log + [AskBump(version, hash, r)];
    }

    method Load() returns (r: Option<(Bytes, Token)>)
      modifies this
      ensures r == loads(|old(log)|) && log == old(log) + [AskLoad(r)]
    {
      r := loads(|log|);
      log := log + [AskLoad(r)];
    }
  }

  /** Between logs `l0` and `l1` a commit went from stage `s` to outcome `o`. */
  ghost predicate Took(l0: seq<Exchange>, l1: seq<Exchange>, s: Stage, o: Outcome) {
    l0 <= l1 && Conforms(s, l1[|l0|..], Done(o))
  }

  lemma TookCall(l0: seq<Exchange>, x: Exchange, l1: seq<Exchange>, s: Stage, o: Outcome)
    requires Accepts(s, x) && Took(l0 + [x], l1, Next(s, x), o)
    ensures Took(l0, l1, s, o)
  {
    assert l1[|l0|..] == [x] + l1[|l0 + [x]|..];
    ConformsStep(s, x, l1[|l0 + [x]|..], Done(o));
  }

  function Lookup(m: map<string, Digest>, ref: string): Option<Digest> {
    if ref in m then Some(m[ref]) else None
  }

  datatype ReadResult = Got(bytes: Bytes, token: Token) | Missing | Refused(outcome: Outcome)

  /** How a read must end, given its calls: a missing object, a failed check, a deny that tells a peer's commit, which only
      some callers want raised, from a coordinator that is behind, or else the bytes. */
  ghost predicate ReadEnds(xs: seq<Exchange>, raiseOnStale: bool, r: ReadResult) {
    && 1 <= |xs| <= 2 && xs[0].AskLoad? && (|xs| == 1 <==> xs[0].loaded.None?)
    && if xs[0].loaded.None? then r == Missing
       else
         var (bytes, token) := xs[0].loaded.value;
         && xs[1].AskPreRead? && xs[1].hash == Some(Sha256(bytes))
         && match xs[1].pre
            case PreReadFault => r == Refused(Failed)
            case PreRead(version, denied, _, seen) =>
              var peer := seen.Some? && seen.value < version;
              r == if denied && !peer then Refused(ViewWedged) else if denied && raiseOnStale then Refused(StaleView) else Got(bytes, token)
  }

  /** A re-acquisition gets the bytes exactly if they are there and the coordinator answers. */
  ghost predicate ReacquireEnds(xs: seq<Exchange>, r: ReadResult) {
    && 1 <= |xs| <= 2 && xs[0].AskLoad? && (|xs| == 1 <==> xs[0].loaded.None?)
    && if xs[0].loaded.None? then r == Missing
       else
         var (bytes, token) := xs[0].loaded.value;
         xs[1].AskPreRead? && xs[1].hash == Some(Sha256(bytes)) && r == if xs[1].pre.PreReadFault? then Refused(Failed) else Got(bytes, token)
  }

  /** One agent's coordinator-mediated view of a store. */
  class CoordinatedSubstrate {
    const wire: Wire
    var observedHash: map<string, Digest>
    var mint: nat

    constructor (wire: Wire)
      ensures this.wire == wire && observedHash == map[] && mint == 0
    {
      this.wire := wire;
      observedHash := map[];
      mint := 0;
    }

    /** A read records the hash it saw before any deny is raised, so even a refused read moves
        the baseline the next commit presents. */
    method Read(ref: string, raiseOnStale: bool) returns (r: ReadResult)
      modifies this`observedHash, wire
      ensures r.Missing? || r == Refused(Failed) ==> observedHash == old(observedHash)
      ensures r.Got? ==> observedHash == old(observedHash)[ref := Sha256(r.bytes)]
      ensures old(wire.log) < wire.log && ReadEnds(wire.log[|old(wire.log)|..], raiseOnStale, r)
      ensures r.Refused? && r.outcome != Failed ==>
        observedHash == old(observedHash)[ref := Sha256(wire.log[|old(wire.log)|].loaded.value.0)]
    {
      var got := wire.Load();
      if got.None? { return Missing; }
      var hash := Sha256(got.value.0);
      var pre := wire.PreRead(Some(hash));
      if pre.PreReadFault? { return Refused(Failed); }
      observedHash := observedHash[ref := hash];
      if pre.denied {
        var o := DenyOutcome(pre.version, pre.priorSeen);
        if o.ViewWedged? || raiseOnStale { return Refused(o); }
      }
      return Got(got.value.0, got.value.1);
    }

    /** Recovery mints a fresh identity first and never raises a deny. */
    method Reacquire(ref: string) returns (r: ReadResult)
      modifies this, wire
      ensures mint == old(mint) + 1
      ensures r.Got? ==> observedHash == old(observedHash)[ref := Sha256(r.bytes)]
      ensures !r.Got? ==> observedHash == old(observedHash)
      ensures r.Refused? ==> r.outcome == Failed
      ensures old(wire.log) < wire.log && ReacquireEnds(wire.log[|old(wire.log)|..], r)
    {
      mint := mint + 1;
      var got := wire.Load();
      if got.None? { return Missing; }
      var hash := Sha256(got.value.0);
      var pre := wire.PreRead(Some(hash));
      if pre.PreReadFault? { return Refused(Failed); }
      observedHash := observedHash[ref := hash];
      return Got(got.value.0, got.value.1);
    }

    method Commit(ref: string, token: Token, bytes: Bytes) returns (o: Outcome)
      modifies this`observedHash, wire
      ensures Took(old(wire.log), wire.log, Checking(token, bytes, Lookup(old(observedHash), ref)), o)
      ensures observedHash == (if o.Committed? && !o.noop then old(observedHash)[ref := Sha256(bytes)] else old(observedHash))
    {
      ghost var l0 := wire.log;
      var observed := Lookup(observedHash, ref);
      var pre := wire.PreRead(observed);
      var checking := Checking(token, bytes, observed);
      ghost var x := AskPreRead(observed, pre);
      if pre.PreReadFault? {
        o := Failed;
      } else if pre.denied {
        o := DenyOutcome(pre.version, pre.priorSeen);
      } else if observed == Some(Sha256(bytes)) {
        o := Committed(pre.version, false, true);
      } else {
        ghost var l1 := wire.log;
        var p := Pending(token, bytes, pre.version);
        var outcome := wire.CasWrite(token, bytes);
        o := AfterSubstrateWrite(ref, p, outcome);
        TookCall(l1, AskCas(token, bytes, outcome), wire.log, Writing(p), o);
      }
      TookCall(l0, x, wire.log, checking, o);
    }

    method AfterSubstrateWrite(ref: string, p: Pending, outcome: CasReply) returns (o: Outcome)
      modifies this`observedHash, wire
      ensures Took(old(wire.log), wire.log, Next(Writing(p), AskCas(p.token, p.bytes, outcome)), o)
      ensures observedHash == (if o.Committed? then old(observedHash)[ref := Sha256(p.bytes)] else old(observedHash))
      ensures o.Committed? ==> !o.noop
    {
      match outcome
      case Written(_) => o := DriveBump(ref, p, false);
      case Conflicted => o := CasVersionConflict;
      case Unknown => o := ReconcileUnknown(ref, p);
      case CasFault => o := Failed;
    }

    method DriveBump(ref: string, p: Pending, converged: bool) returns (o: Outcome)
      modifies this`observedHash, wire
      ensures Took(old(wire.log), wire.log, Bumping(p, converged), o)
      ensures observedHash == (if o.Committed? then old(observedHash)[ref := Sha256(p.bytes)] else old(observedHash))
      ensures o.Committed? ==> !o.noop
    {
      ghost var l0 := wire.log;
      var bump := wire.CommitCas(p.version, Sha256(p.bytes));
      match bump {
        case BumpWin(version) =>
          observedHash := observedHash[ref := Sha256(p.bytes)];
          o := Committed(version, converged, false);
        case BumpConflict(current) => o := ResolveBumpConflict(ref, p, current, converged);
        case BumpUnconfirmed => o := CommitUnconfirmed;
        case BumpRejected => o := Failed;
      }
      TookCall(l0, AskBump(p.version, Sha256(p.bytes), bump), wire.log, Bumping(p, converged), o);
    }

    method ResolveBumpConflict(ref: string, p: Pending, current: Option<nat>, converged: bool) returns (o: Outcome)
      modifies this`observedHash, wire
      ensures Took(old(wire.log), wire.log, if converged then Confirming(p, current) else Done(CasVersionConflict), o)
      ensures observedHash == (if o.Committed? then old(observedHash)[ref := Sha256(p.bytes)] else old(observedHash))
      ensures o.Committed? ==> !o.noop
    {
      ghost var l0 := wire.log;
      if !converged { return CasVersionConflict; }
      var pre := wire.PreRead(Some(Sha256(p.bytes)));
      if pre.PreReadFault? {
        o := Failed;
      } else if !pre.hashDiffers {
        observedHash := observedHash[ref := Sha256(p.bytes)];
        o := Committed(if current.Some? && current.value != 0 then current.value else p.version, true, false);
      } else {
        o := CasVersionConflict;
      }
      TookCall(l0, AskPreRead(Some(Sha256(p.bytes)), pre), wire.log, Confirming(p, current), o);
    }

    method ReconcileUnknown(ref: string, p: Pending) returns (o: Outcome)
      modifies this`observedHash, wire
      ensures Took(old(wire.log), wire.log, Settling(p), o)
      ensures observedHash == (if o.Committed? then old(observedHash)[ref := Sha256(p.bytes)] else old(observedHash))
      ensures o.Committed? ==> !o.noop
    {
      ghost var l0 := wire.log;
      var reply := wire.ReconcileAfterUnknown(p.token, Sha256(p.bytes));
      match reply {
        case ReconcileFault => o := Failed;
        case Decided(d) =>
          if d.verdict.Hold? {
            o := ViewWedged;
          } else if d.verdict.Converge? {
            o := DriveBump(ref, p, true);
          } else if d.verdict.ReDrive? && d.token.Some? {
            o := ReDrive(ref, p, d.token.value);
          } else {
            o := CasVersionConflict;
          }
      }
      TookCall(l0, AskReconcile(p.token, Sha256(p.bytes), reply), wire.log, Settling(p), o);
    }

    method ReDrive(ref: string, p: Pending, token: Token) returns (o: Outcome)
      modifies this`observedHash, wire
      ensures Took(old(wire.log), wire.log, Redriving(p, token), o)
      ensures observedHash == (if o.Committed? then old(observedHash)[ref := Sha256(p.bytes)] else old(observedHash))
      ensures o.Committed? ==> !o.noop
    {
      ghost var l0 := wire.log;
      var retry := wire.CasWrite(token, p.bytes);
      ghost var x := AskCas(token, p.bytes, retry);
      match retry {
        case Written(_) => o := DriveBump(ref, p, false);
        case Conflicted =>
          ghost var l1 := wire.log;
          var reply := wire.ReconcileAfterUnknown(p.token, Sha256(p.bytes));
          match reply {
            case ReconcileFault => o := Failed;
            case Decided(d) =>
              if d.verdict.Converge? {
                o := DriveBump(ref, p, true);
              } else {
                o := CasVersionConflict;
              }
          }
          TookCall(l1, AskReconcile(p.token, Sha256(p.bytes), reply), wire.log, Resettling(p), o);
        case Unknown => o := CommitUnconfirmed;
        case CasFault => o := Failed;
      }
      TookCall(l0, x, wire.log, Redriving(p, token), o);
    }
  }
}
