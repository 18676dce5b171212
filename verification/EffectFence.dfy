/** The effect-ordering gate: capture a decision's input, decide, and fire only if the input is provably
    unchanged and still under the grant it was read from. */
module EffectFence {
  import opened Foundations
  import opened Grants

  /** What the coordinator's record says about the content: a digest, the empty seed, or the filler digest. */
  datatype Claim = Content(bytes: Bytes) | Unclaimed | Filler

  /** The coordinator's record of one artifact, and the file. `me` is the gating volume's session. */
  datatype World = World(
    version: nat,
    generation: nat,
    recorded: Claim,
    holders: map<Session, Mesi>,
    file: Option<Bytes>,
    strict: bool,
    me: Session)

  /** What other parties do. The gating volume itself does nothing here. */
  datatype Event =
    | PeerCommit(peer: Session, content: Claim, pessimistic: bool)
    | WriteAcquire(peer: Session)            // a peer takes the write claim; nothing is committed
    | Revoke(who: Session)                 // sweep reclaim, transient timeout, or voluntary release
    | PeerRead(peer: Session)
    | Downgrade(who: Session)              // a fetch by another reader demotes a write claim to SHARED
    | EditFile(file: Option<Bytes>)        // outside the coherence layer, deletion included

  function Only(holders: map<Session, Mesi>, s: Session, m: Mesi): map<Session, Mesi> {
    map t | t in holders.Keys + {s} :: if t == s then m else Invalid
  }

  predicate Applies(w: World, e: Event) {
    match e
    case PeerCommit(peer, _, _) => peer != w.me
    case WriteAcquire(peer) => peer != w.me
    case Revoke(who) => who in w.holders
    case PeerRead(peer) => peer != w.me
    case Downgrade(who) => who in w.holders && Writes(w.holders[who])
    case EditFile(_) => true
  }

  /** Revoking a write claim without moving the version is what moves the generation. */
  predicate MovesGeneration(w: World, e: Event) {
    e.Revoke? && Applies(w, e) && Writes(w.holders[e.who])
  }

  function Step(w: World, e: Event): World {
    if !Applies(w, e) then w
    else
      match e
      case PeerCommit(peer, content, pessimistic) =>
        w.(version := w.version + 1, recorded := content,
           holders := Only(w.holders, peer, if pessimistic then Modified else SharedState))
      case WriteAcquire(peer) => w.(holders := Only(w.holders, peer, Exclusive))
      case Revoke(who) =>
        w.(generation := w.generation + (if Writes(w.holders[who]) then 1 else 0), holders := w.holders[who := Invalid])
      case PeerRead(peer) => w.(holders := w.holders[peer := SharedState])
      case Downgrade(who) => w.(holders := w.holders[who := SharedState])
      case EditFile(file) => w.(file := file)
  }

  function Run(w: World, es: seq<Event>): World
    decreases |es|
  {
    if es == [] then w else Run(Step(w, es[0]), es[1..])
  }

  // ----- reads -----

  datatype Fate =
    | Served(lag: bool, reportsGeneration: bool)   // `lag`: recent-own-commit window; older servers report no generation
    | Degraded

  /** What one versioned read reports: no version is 0, no confirmed generation is None. */
  datatype Reading = Reading(version: nat, generation: Option<nat>, denied: bool, stale: bool)

  predicate Standing(w: World) { w.me in w.holders && !w.holders[w.me].Invalid? }

  /** A standing session is not held to a filler record; one without a standing grant is. */
  predicate Differs(w: World, data: Bytes) {
    match w.recorded
    case Content(bytes) => data != bytes
    case Unclaimed => false
    case Filler => !Standing(w)
  }

  /** The strict-mode pre-read denies an INVALID session, a stateless one with other bytes, and a standing
      one with other bytes that did not itself commit just now. */
  predicate Denied(w: World, data: Bytes, lag: bool) {
    w.strict && (if Standing(w) then Differs(w, data) && !lag else w.me in w.holders || Differs(w, data))
  }

  /** The server's answer about bytes read earlier, together with what the client makes of it: a hash mismatch
      or a deny leaves the generation unconfirmed. */
  function ReadingOf(w: World, data: Bytes, fate: Fate): Reading {
    match fate
    case Degraded => Reading(0, None, false, false)
    case Served(lag, reports) =>
      Reading(w.version,
              if Denied(w, data, lag) || Differs(w, data) || !reports then None else Some(w.generation),
              Denied(w, data, lag),
              !Standing(w) || Denied(w, data, lag))
  }

  /** An observing read re-grants SHARED on anything but a deny; a verification read leaves every grant alone. */
  function Granted(w: World, data: Bytes, fate: Fate, verifyOnly: bool): World {
    if verifyOnly || fate.Degraded? || Standing(w) || Denied(w, data, fate.lag) then w
    else w.(holders := w.holders[w.me := SharedState])
  }

  // ----- the gate -----

  datatype Cause =
    | InputVanished | VersionUnconfirmed | VersionMoved | ReadDenied | GenerationUnconfirmed
    | GrantReclaimed | GrantPreempted
    | AssertionArm

  function Held(expected: nat, current: Option<nat>, expectedGen: Option<nat>, currentGen: Option<nat>, denied: bool, lapsed: bool): Cause {
    var unconfirmed := expectedGen.None? || currentGen.None?;
    if current.None? then InputVanished
    else if expected == 0 || current.value == 0 then VersionUnconfirmed
    else if current.value != expected then VersionMoved
    else if denied && unconfirmed then ReadDenied
    else if unconfirmed then GenerationUnconfirmed
    else if currentGen != expectedGen then GrantReclaimed
    else if lapsed then GrantPreempted
    else AssertionArm
  }

  datatype Verdict = Pass | Hold(cause: Cause)

  /** The verdict on a pair captured earlier, given what the re-read reported (None: no such file). */
  function Judge(expected: nat, expectedGen: Option<nat>, reading: Option<Reading>): Verdict {
    match reading
    case None => Hold(Held(expected, None, expectedGen, None, false, false))
    case Some(r) =>
      if || expected == 0 || r.version == 0 || expectedGen.None? || r.generation.None?
         || r.version != expected || r.generation != expectedGen || r.stale
      then Hold(Held(expected, Some(r.version), expectedGen, r.generation, r.denied, r.stale))
      else Pass
  }

  /** The re-check: read the file, let the others act, ask the coordinator with verify_only. */
  function CheckFence(w: World, expected: nat, expectedGen: Option<nat>, es: seq<Event>, fate: Fate): Verdict {
    Judge(expected, expectedGen, if w.file.None? then None else Some(ReadingOf(Run(w, es), w.file.value, fate)))
  }

  /** The others act before the capture is answered, during the decision, and before the re-check is answered. */
  datatype Schedule = Schedule(capturing: seq<Event>, deciding: seq<Event>, checking: seq<Event>, capture: Fate, recheck: Fate)

  datatype GateResult<R> = Fired(result: R) | Stopped(cause: Cause) | NoFile

  /** The coordinator once the capture is answered. */
  function Captured(w: World, s: Schedule): World
    requires w.file.Some?
  {
    Granted(Run(w, s.capturing), w.file.value, s.capture, false)
  }

  function Gate<D, R>(w: World, s: Schedule, decide: Bytes -> D, effect: D -> R): GateResult<R> {
    if w.file.None? then NoFile
    else
      var r := ReadingOf(Run(w, s.capturing), w.file.value, s.capture);
      var decision := decide(w.file.value);
      match CheckFence(Run(Captured(w, s), s.deciding), r.version, r.generation, s.checking, s.recheck)
      case Pass => Fired(effect(decision))
      case Hold(cause) => Stopped(cause)
  }

  // ----- runs of the other parties -----

  lemma {:induction false} RunGrows(w: World, es: seq<Event>)
    ensures w.version <= Run(w, es).version && w.generation <= Run(w, es).generation
    ensures Run(w, es).me == w.me && Run(w, es).strict == w.strict
    ensures w.me in w.holders ==> w.me in Run(w, es).holders
    decreases |es|
  {
    if es != [] { RunGrows(Step(w, es[0]), es[1..]); }
  }

  lemma {:induction false} RunThen(w: World, es: seq<Event>, k: nat)
    requires k <= |es|
    ensures Run(w, es) == Run(Run(w, es[..k]), es[k..])
    decreases |es|
  {
    if k == 0 {
      assert es[0..] == es;
    } else {
      assert es[1..][..k - 1] == es[..k][1..] && es[1..][k - 1..] == es[k..];
      RunThen(Step(w, es[0]), es[1..], k - 1);
    }
  }

  /** Once the volume's grant is gone, nothing others do brings it back. */
  lemma {:induction false} LossIsSticky(w: World, es: seq<Event>)
    requires w.me in w.holders && w.holders[w.me].Invalid?
    ensures var r := Run(w, es); r.me in r.holders && r.holders[r.me].Invalid?
    decreases |es|
  {
    if es != [] { LossIsSticky(Step(w, es[0]), es[1..]); }
  }

  /** Nothing happened to the input between capture and check. */
  ghost predicate Undisturbed(w: World, es: seq<Event>) {
    forall k :: 0 <= k <= |es| ==>
      && Standing(Run(w, es[..k]))
      && Run(w, es[..k]).recorded == w.recorded
      && (k < |es| && Applies(Run(w, es[..k]), es[k]) ==> !es[k].PeerCommit? && !MovesGeneration(Run(w, es[..k]), es[k]))
  }

  lemma UndisturbedAt(w: World, es: seq<Event>, k: nat)
    requires k < |es| && Standing(Run(w, es)) && w.me in w.holders
    requires Run(w, es).version == w.version && Run(w, es).generation == w.generation
    ensures Standing(Run(w, es[..k]))
    ensures Applies(Run(w, es[..k]), es[k]) ==> !es[k].PeerCommit? && !MovesGeneration(Run(w, es[..k]), es[k])
  {
    var now := Run(w, es[..k]);
    RunThen(w, es, k);
    RunGrows(w, es[..k]);
    if !Standing(now) { LossIsSticky(now, es[k..]); }
    assert Run(now, es[k..]) == Run(Step(now, es[k]), es[k..][1..]);
    RunGrows(Step(now, es[k]), es[k..][1..]);
  }

  lemma {:induction false} RecordKept(w: World, es: seq<Event>, k: nat)
    requires k <= |es|
    requires forall i :: 0 <= i < k ==> Applies(Run(w, es[..i]), es[i]) ==> !es[i].PeerCommit?
    ensures Run(w, es[..k]).recorded == w.recorded
  {
    if k > 0 {
      RecordKept(w, es, k - 1);
      RunThen(w, es[..k], k - 1);
      assert es[..k][..k - 1] == es[..k - 1] && es[..k][k - 1..] == [es[k - 1]];
      var now := Run(w, es[..k - 1]);
      assert Run(now, [es[k - 1]]) == Step(now, es[k - 1]) by {
        assert [es[k - 1]][1..] == [];
      }
    }
  }

  lemma StaysUndisturbed(w: World, es: seq<Event>)
    requires Standing(Run(w, es)) && w.me in w.holders
    requires Run(w, es).version == w.version && Run(w, es).generation == w.generation
    ensures Undisturbed(w, es) && Run(w, es).recorded == w.recorded
  {
    forall k | 0 <= k < |es|
      ensures Standing(Run(w, es[..k]))
      ensures Applies(Run(w, es[..k]), es[k]) ==> !es[k].PeerCommit? && !MovesGeneration(Run(w, es[..k]), es[k])
    {
      UndisturbedAt(w, es, k);
    }
    assert es[..|es|] == es;
    forall k | 0 <= k <= |es| ensures Run(w, es[..k]).recorded == w.recorded {
      RecordKept(w, es, k);
    }
  }

  /** If the gate fires, then from the captured answer to the re-check's answer no commit happened, the
      generation did not move and the volume's grant stood at every moment; and where the coordinator records
      a content digest, the file still held at the re-read the bytes the decision was made from. */
  lemma {:induction false} FiredMeansUnchanged<D, R>(w: World, s: Schedule, decide: Bytes -> D, effect: D -> R)
    requires Gate(w, s, decide, effect).Fired?
    ensures Undisturbed(Captured(w, s), s.deciding + s.checking)
    ensures Captured(w, s).recorded.Content? ==> Run(Captured(w, s), s.deciding).file == w.file
    ensures Gate(w, s, decide, effect).result == effect(decide(w.file.value))
  {
    var start := Captured(w, s);
    RunGrows(start, s.deciding + s.checking);
    RunThen(start, s.deciding + s.checking, |s.deciding|);
    assert (s.deciding + s.checking)[..|s.deciding|] == s.deciding && (s.deciding + s.checking)[|s.deciding|..] == s.checking;
    StaysUndisturbed(start, s.deciding + s.checking);
  }

  lemma UndisturbedKeepsPair(w: World, es: seq<Event>)
    requires Undisturbed(w, es)
    ensures Run(w, es).version == w.version && Run(w, es).generation == w.generation && Standing(Run(w, es))
  {
    assert es[..|es|] == es;
    if Run(w, es).version != w.version {
      SomeCommit(w, es);
    } else if Run(w, es).generation != w.generation {
      SomeRevocation(w, es);
    }
  }

  /** The gate is no stricter than that: after a confirmed capture, an answered re-check of the recorded bytes
      fires whenever nothing disturbed the input. */
  lemma {:induction false} UndisturbedFires<D, R>(w: World, s: Schedule, decide: Bytes -> D, effect: D -> R)
    requires w.file.Some? && w.version > 0 && s.recheck.Served? && s.recheck.reportsGeneration
    requires ReadingOf(Run(w, s.capturing), w.file.value, s.capture).generation.Some?
    requires Undisturbed(Captured(w, s), s.deciding + s.checking)
    requires var reread := Run(Captured(w, s), s.deciding).file;
      reread.Some? && !Differs(Run(Captured(w, s), s.deciding + s.checking), reread.value)
    ensures Gate(w, s, decide, effect).Fired?
  {
    var start := Captured(w, s);
    var reread := Run(start, s.deciding);
    var end := Run(start, s.deciding + s.checking);
    RunGrows(w, s.capturing);
    UndisturbedKeepsPair(start, s.deciding + s.checking);
    RunSplit(start, s.deciding, s.checking);
    ConfirmedReading(Run(w, s.capturing), w.file.value, s.capture);
    StandingReading(end, reread.file.value, s.recheck);
  }

  lemma RunSplit(w: World, xs: seq<Event>, ys: seq<Event>)
    ensures Run(w, xs + ys) == Run(Run(w, xs), ys)
  {
    RunThen(w, xs + ys, |xs|);
    assert (xs + ys)[..|xs|] == xs && (xs + ys)[|xs|..] == ys;
  }

  /** A confirmed reading reports the version and generation, which the grant it may bring leaves alone. */
  lemma ConfirmedReading(w: World, data: Bytes, fate: Fate)
    requires ReadingOf(w, data, fate).generation.Some?
    ensures ReadingOf(w, data, fate).version == w.version && ReadingOf(w, data, fate).generation == Some(w.generation)
    ensures Granted(w, data, fate, false).version == w.version && Granted(w, data, fate, false).generation == w.generation
  {
  }

  lemma StandingReading(w: World, data: Bytes, fate: Fate)
    requires fate.Served? && fate.reportsGeneration && Standing(w) && !Differs(w, data)
    ensures ReadingOf(w, data, fate) == Reading(w.version, Some(w.generation), false, false)
  {
  }

  /** A record without a content digest, unclaimed or filler, vouches for the grant only: whatever the file is
      rewritten to outside the coherence layer while the decision is made, the gate fires. */
  lemma UnclaimedBytesMayDiffer<D, R>(w: World, after: Bytes, lag: bool, decide: Bytes -> D, effect: D -> R)
    requires Standing(w) && w.version > 0 && w.file.Some? && !w.recorded.Content?
    ensures var s := Schedule([], [EditFile(Some(after))], [], Served(lag, true), Served(lag, true));
      Gate(w, s, decide, effect) == Fired(effect(decide(w.file.value))) && Run(Captured(w, s), s.deciding).file == Some(after)
  {
    assert [EditFile(Some(after))][1..] == [];
    assert Run(w, [EditFile(Some(after))]) == w.(file := Some(after));
  }

  /** A hold never comes from the assertion arm. */
  lemma EveryHoldHasACause(w: World, expected: nat, expectedGen: Option<nat>, es: seq<Event>, fate: Fate)
    ensures CheckFence(w, expected, expectedGen, es, fate) != Hold(AssertionArm)
  {
  }

  /** After a preemption every re-check holds, whatever others do in the meantime and however often it is
      repeated: a bare re-check never re-arms the decision. */
  lemma PreemptionHoldsForever(w: World, peer: Session, es: seq<Event>, expected: nat, expectedGen: Option<nat>, checking: seq<Event>, fate: Fate)
    requires Standing(w) && peer != w.me
    ensures CheckFence(Run(Step(w, WriteAcquire(peer)), es), expected, expectedGen, checking, fate).Hold?
    ensures forall data :: Granted(Run(Step(w, WriteAcquire(peer)), es), data, fate, true) == Run(Step(w, WriteAcquire(peer)), es)
  {
    LossIsSticky(Step(w, WriteAcquire(peer)), es);
    RunGrows(Step(w, WriteAcquire(peer)), es);
    LossIsSticky(Run(Step(w, WriteAcquire(peer)), es), checking);
  }

  /** What each cause says about what the capture at `start` reported, the events `es` since, the bytes the re-check read and
      its fate. A vanished file comes first, then an unanswered read, then a commit; with the version unmoved, what the
      coordinator says of the bytes re-read, then the generation, then the grant. */
  ghost predicate Explains(cause: Cause, capture: Reading, start: World, es: seq<Event>, reread: Option<Bytes>, recheck: Fate) {
    ExplainsAt(cause, capture, Run(start, es), SomeoneCommits(start, es), SomeoneIsRevoked(start, es), reread, recheck)
  }

  ghost predicate ExplainsAt(cause: Cause, capture: Reading, end: World, committed: bool, revoked: bool, reread: Option<Bytes>, recheck: Fate) {
    var answered := capture.version > 0 && reread.Some? && recheck.Served?;
    var unmoved := answered && !committed;
    var confirmed := unmoved && capture.generation.Some?
      && !Denied(end, reread.value, recheck.lag) && !Differs(end, reread.value) && recheck.reportsGeneration;
    match cause
    case InputVanished => reread.None?
    case VersionUnconfirmed => reread.Some? && (capture.version == 0 || recheck.Degraded?)
    case VersionMoved => answered && committed
    case ReadDenied => unmoved && Denied(end, reread.value, recheck.lag)
    case GenerationUnconfirmed => unmoved && !Denied(end, reread.value, recheck.lag) && !confirmed
    case GrantReclaimed => confirmed && revoked
    case GrantPreempted => confirmed && !revoked && !Standing(end)
    case AssertionArm => false
  }

  ghost predicate SomeoneCommits(w: World, es: seq<Event>) {
    exists k :: 0 <= k < |es| && Applies(Run(w, es[..k]), es[k]) && es[k].PeerCommit?
  }

  /** A write claim was revoked without a commit. */
  ghost predicate SomeoneIsRevoked(w: World, es: seq<Event>) {
    exists k :: 0 <= k < |es| && MovesGeneration(Run(w, es[..k]), es[k])
  }

  lemma StepFirst(w: World, es: seq<Event>, k: nat)
    requires k < |es|
    ensures Run(w, es) == Run(Step(Run(w, es[..k]), es[k]), es[k + 1..])
  {
    RunThen(w, es, k);
    assert es[k..][1..] == es[k + 1..];
  }

  lemma VersionMovesExactly(w: World, es: seq<Event>)
    ensures Run(w, es).version != w.version <==> SomeoneCommits(w, es)
  {
    if Run(w, es).version != w.version { SomeCommit(w, es); }
    if SomeoneCommits(w, es) {
      var k :| 0 <= k < |es| && Applies(Run(w, es[..k]), es[k]) && es[k].PeerCommit?;
      StepFirst(w, es, k);
      RunGrows(w, es[..k]);
      RunGrows(Step(Run(w, es[..k]), es[k]), es[k + 1..]);
    }
  }

  lemma GenerationMovesExactly(w: World, es: seq<Event>)
    ensures Run(w, es).generation != w.generation <==> SomeoneIsRevoked(w, es)
  {
    if Run(w, es).generation != w.generation { SomeRevocation(w, es); }
    if SomeoneIsRevoked(w, es) {
      var k :| 0 <= k < |es| && MovesGeneration(Run(w, es[..k]), es[k]);
      StepFirst(w, es, k);
      RunGrows(w, es[..k]);
      RunGrows(Step(Run(w, es[..k]), es[k]), es[k + 1..]);
    }
  }

  /** The gate stops with a cause exactly if that is what happened. */
  lemma {:induction false} CausesAreExact<D, R>(w: World, s: Schedule, decide: Bytes -> D, effect: D -> R, cause: Cause)
    requires w.file.Some?
    ensures Gate(w, s, decide, effect) == Stopped(cause) <==>
      Explains(cause, ReadingOf(Run(w, s.capturing), w.file.value, s.capture), Captured(w, s), s.deciding + s.checking,
               Run(Captured(w, s), s.deciding).file, s.recheck)
  {
    var start := Captured(w, s);
    var es := s.deciding + s.checking;
    RunGrows(start, es);
    RunSplit(start, s.deciding, s.checking);
    VersionMovesExactly(start, es);
    GenerationMovesExactly(start, es);
    CaptureReading(Run(w, s.capturing), w.file.value, s.capture);
    JudgedExactly(ReadingOf(Run(w, s.capturing), w.file.value, s.capture), Run(start, es), SomeoneCommits(start, es), SomeoneIsRevoked(start, es),
                  Run(start, s.deciding).file, s.recheck, cause);
  }

  lemma JudgedExactly(capture: Reading, end: World, committed: bool, revoked: bool, reread: Option<Bytes>, recheck: Fate, cause: Cause)
    requires capture.version > 0 ==> end.version > 0 && (end.version != capture.version <==> committed)
    requires capture.generation.Some? ==> (end.generation != capture.generation.value <==> revoked)
    ensures Judge(capture.version, capture.generation, if reread.None? then None else Some(ReadingOf(end, reread.value, recheck))) == Hold(cause) <==>
      ExplainsAt(cause, capture, end, committed, revoked, reread, recheck)
  {
  }

  lemma CaptureReading(w: World, data: Bytes, fate: Fate)
    ensures var r, granted := ReadingOf(w, data, fate), Granted(w, data, fate, false);
      && (r.version > 0 ==> r.version == granted.version) && (r.generation.Some? ==> r.generation.value == granted.generation)
  {
  }

  /** How a lost grant reaches the client: once the session's grant was reclaimed or a peer acquired the write claim, with no
      commit since, an answered re-check on a strict path is stopped as denied. */
  lemma LossIsReportedAsDenied<D, R>(w: World, s: Schedule, decide: Bytes -> D, effect: D -> R, k: nat)
    requires w.file.Some? && w.version > 0 && w.strict && s.recheck.Served?
    requires ReadingOf(Run(w, s.capturing), w.file.value, s.capture).generation.Some?
    requires Run(Captured(w, s), s.deciding).file.Some? && !SomeoneCommits(Captured(w, s), s.deciding + s.checking)
    requires k < |s.deciding + s.checking|
    requires var e := (s.deciding + s.checking)[k]; e == Revoke(w.me) || (e.WriteAcquire? && e.peer != w.me)
    ensures Gate(w, s, decide, effect) == Stopped(ReadDenied)
  {
    var start, es := Captured(w, s), s.deciding + s.checking;
    var now := Run(start, es[..k]);
    RunGrows(w, s.capturing);
    RunGrows(start, es[..k]);
    StepFirst(start, es, k);
    LossIsSticky(Step(now, es[k]), es[k + 1..]);
    RunGrows(start, es);
    CausesAreExact(w, s, decide, effect, ReadDenied);
  }

  /** An edit of the file outside the coherence layer is noticed wherever a content digest is recorded: undisturbed otherwise,
      a confirmed capture followed by other bytes stops, as denied on a strict path unless the session committed
      just now, and otherwise for want of a confirmed generation. */
  lemma ForeignEditStops<D, R>(w: World, s: Schedule, decide: Bytes -> D, effect: D -> R)
    requires w.file.Some? && s.recheck.Served? && Captured(w, s).recorded.Content?
    requires var capture := ReadingOf(Run(w, s.capturing), w.file.value, s.capture); capture.version > 0 && capture.generation.Some?
    requires Undisturbed(Captured(w, s), s.deciding + s.checking)
    requires var reread := Run(Captured(w, s), s.deciding).file; reread.Some? && reread.value != Captured(w, s).recorded.bytes
    ensures Gate(w, s, decide, effect) == Stopped(if w.strict && !s.recheck.lag then ReadDenied else GenerationUnconfirmed)
  {
    var start, es := Captured(w, s), s.deciding + s.checking;
    RunGrows(w, s.capturing);
    RunGrows(start, es);
    UndisturbedKeepsPair(start, es);
    VersionMovesExactly(start, es);
    assert es[..|es|] == es && Run(start, es).recorded == start.recorded;
    CausesAreExact(w, s, decide, effect, if w.strict && !s.recheck.lag then ReadDenied else GenerationUnconfirmed);
  }

  /** A capture is confirmed exactly if the coordinator answers with a generation, the file holds what is recorded (a filler
      record counts only for a session that stands), and, on a strict path, the session has not lost its grant. */
  lemma ConfirmedExactly(w: World, data: Bytes, fate: Fate)
    ensures ReadingOf(w, data, fate).generation.Some? <==>
      && fate.Served? && fate.reportsGeneration
      && (w.recorded.Content? ==> data == w.recorded.bytes) && (w.recorded.Filler? ==> Standing(w))
      && (w.strict && w.me in w.holders ==> w.holders[w.me] != Invalid)
    ensures w.strict && w.me !in w.holders && w.recorded.Content? && data != w.recorded.bytes && fate.Served? ==>
      ReadingOf(w, data, fate).denied && Granted(w, data, fate, false) == w
  {
  }

  lemma {:induction false} SomeCommit(w: World, es: seq<Event>)
    requires Run(w, es).version != w.version
    ensures exists k :: 0 <= k < |es| && Applies(Run(w, es[..k]), es[k]) && es[k].PeerCommit?
    decreases |es|
  {
    if Step(w, es[0]).version != w.version {
      assert Run(w, es[..0]) == w;
    } else {
      SomeCommit(Step(w, es[0]), es[1..]);
      var k :| 0 <= k < |es[1..]| && Applies(Run(Step(w, es[0]), es[1..][..k]), es[1..][k]) && es[1..][k].PeerCommit?;
      assert es[1..][..k] == es[..k + 1][1..] && es[1..][k] == es[k + 1];
    }
  }

  lemma {:induction false} SomeRevocation(w: World, es: seq<Event>)
    requires Run(w, es).generation != w.generation
    ensures exists k :: 0 <= k < |es| && MovesGeneration(Run(w, es[..k]), es[k])
    decreases |es|
  {
    if Step(w, es[0]).generation != w.generation {
      assert Run(w, es[..0]) == w;
    } else {
      SomeRevocation(Step(w, es[0]), es[1..]);
      var k :| 0 <= k < |es[1..]| && MovesGeneration(Run(Step(w, es[0]), es[1..][..k]), es[1..][k]);
      assert es[1..][..k] == es[..k + 1][1..] && es[1..][k] == es[k + 1];
    }
  }
}
