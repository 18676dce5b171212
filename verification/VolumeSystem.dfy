/** Any number of volumes reading and optimistically writing one strict path, at the grain of single
    file and coordinator calls. The coordinator commits before the winner replaces the file, so the file lags
    the version; answers to commits may be lost, and such a commit may still take effect later; a replacement may fail. */
module VolumeSystem {
  import opened Foundations
  import opened VolumeProtocol

  datatype View = Shared | Invalid

  /** A commit whose answer was lost; it may still be applied. */
  datatype LateCas = LateCas(session: Session, version: nat, base: Bytes, bytes: Bytes)

  datatype Doing = Idle | Busy(op: Op, stage: Stage)

  datatype Volume = Volume(session: Session, doing: Doing, outcome: Option<Outcome>)

  /** `disk` is every content the file has held, latest last; `written[i]` is the operation that
      turned disk[i] into disk[i + 1]. `records[v - 1]` is the content whose hash is recorded at version v.
      `orphans` holds the positions in `records` of commits that no file replacement follows: those that took effect
      after their caller had been told they were unconfirmed, and those whose replacement failed. */
  datatype World = World(
    disk: seq<Bytes>,
    written: seq<Op>,
    records: seq<Bytes>,
    views: map<Session, View>,
    lastWriter: Option<Session>,
    late: set<LateCas>,
    orphans: set<nat>,
    volumes: map<nat, Volume>)

  datatype Fate =
    | Served(lag: bool)   // `lag` is the recent-own-commit window
    | LostAnswer
    | TurnedAway          // a pessimistic holder, the generation fence, or a transient
    | Broken

  datatype Event =
    | Start(volume: nat, op: Op, reacquire: bool)
    | Go(volume: nat, fate: Fate)
    | LateLands(cas: LateCas, turnedAway: bool)

  function Last(s: seq<Bytes>): Bytes
    requires s != []
  {
    s[|s| - 1]
  }

  predicate Sane(w: World) { w.disk != [] && w.records != [] }

  /** `/hooks/pre-read` on a strict path. */
  function PreReadAt(w: World, s: Session, data: Bytes, lag: bool): (World, PreReadReply)
    requires Sane(w)
  {
    var v, differs := |w.records|, data != Last(w.records);
    if s !in w.views then
      if differs then (w, PreRead(v, true)) else (w.(views := w.views[s := Shared]), PreRead(v, false))
    else if w.views[s].Invalid? then (w, PreRead(v, true))
    else (w, PreRead(v, differs && !(lag && w.lastWriter == Some(s))))
  }

  /** `/hooks/post-edit-cas` for a version that is current: recorded, the committer SHARED, everyone else INVALID. */
  function Commit(w: World, s: Session, bytes: Bytes): World {
    w.(records := w.records + [bytes], lastWriter := Some(s),
       views := map t | t in w.views.Keys + {s} :: if t == s then Shared else Invalid)
  }

  const MISMATCH := "version_mismatch"

  function CasAt(w: World, s: Session, version: nat, base: Bytes, bytes: Bytes, fate: Fate): (World, Option<Body>) {
    match fate
    case Broken => (w, Some(Body(false, "commit_cas_not_allowed", None, false)))
    case TurnedAway => (w, Some(Body(false, "other_holder", Some(|w.records|), false)))
    case LostAnswer => (w.(late := w.late + {LateCas(s, version, base, bytes)}), None)
    case Served(_) =>
      if version > |w.records| then (w, Some(Body(false, "commit_cas_corruption", None, false)))
      else if version < |w.records| then (w, Some(Body(false, MISMATCH, Some(|w.records|), false)))
      else (Commit(w, s, bytes), Some(Body(true, "", Some(version + 1), false)))
  }

  /** The call an operation in stage `s` makes, carried out on the world. */
  function Serve(w: World, op: Op, s: Stage, fate: Fate): (r: (World, Exchange))
    requires Sane(w) && !s.Done?
    ensures Accepts(op, s, r.1)
  {
    match s
    case Loading(_) => (w, LoadFile(Some(Last(w.disk))))
    case Registering(c, data) =>
      if !fate.Served? then (w, AskPreRead(c.session, Sha256(data), PreReadFault))
      else
        var (w', r) := PreReadAt(w, c.session, data, fate.lag);
        (w', AskPreRead(c.session, Sha256(data), r))
    case Posting(c, base, version) =>
      var (w', r) := CasAt(w, c.session, version, base, Derive(op, base), fate);
      (w', AskCas(c.session, version, Sha256(Derive(op, base)), r))
    case Replacing(_, base, _) =>
      if fate.Broken? then (w.(orphans := w.orphans + {|w.records| - 1}), ReplaceFile(Derive(op, base), false))
      else (w.(disk := w.disk + [Derive(op, base)], written := w.written + [op]), ReplaceFile(Derive(op, base), true))
  }

  function SessionOf(s: Stage): Session
    requires !s.Done?
  {
    s.c.session
  }

  function GoOn(w: World, a: nat, fate: Fate): World
    requires Sane(w) && a in w.volumes && w.volumes[a].doing.Busy? && !w.volumes[a].doing.stage.Done?
  {
    var v := w.volumes[a];
    var (w', x) := Serve(w, v.doing.op, v.doing.stage, fate);
    var t := Next(v.doing.op, v.doing.stage, x);
    var v' := if t.Done? then Volume(SessionOf(v.doing.stage), Idle, Some(t.outcome))
              else Volume(SessionOf(t), Busy(v.doing.op, t), v.outcome);
    w'.(volumes := w.volumes[a := v'])
  }

  function Begin(w: World, a: nat, op: Op, reacquire: bool): World
    requires a in w.volumes
  {
    var v := w.volumes[a];
    var session := if reacquire || op.At? then Remint(v.session) else v.session;
    w.(volumes := w.volumes[a := v.(session := session, doing := Busy(op, Loading(Control(session, 0, 0, -1))))])
  }

  /** The commit a volume in its posting stage sends. */
  function Sent(d: Doing): LateCas
    requires d.Busy? && d.stage.Posting?
  {
    LateCas(SessionOf(d.stage), d.stage.version, d.stage.base, Derive(d.op, d.stage.base))
  }

  /** This step is a post that wins: the file replacement is still to follow. */
  predicate Wins(w: World, e: Event) {
    && e.Go? && e.fate.Served? && e.volume in w.volumes && w.volumes[e.volume].doing.Busy?
    && w.volumes[e.volume].doing.stage.Posting? && w.volumes[e.volume].doing.stage.version == |w.records|
  }

  /** This step is a commit of unknown fate that takes effect after all. */
  predicate Arrives(w: World, e: Event) {
    e.LateLands? && !e.turnedAway && e.cas in w.late && e.cas.version == |w.records|
  }

  /** One step. An event that does not apply leaves the world as it is. */
  function Step(w: World, e: Event): (r: World)
    requires Sane(w)
    ensures Sane(r) && w.records <= r.records && w.disk <= r.disk && w.orphans <= r.orphans
  {
    match e
    case Start(a, op, reacquire) =>
      if a in w.volumes && w.volumes[a].doing.Idle? then Begin(w, a, op, reacquire) else w
    case Go(a, fate) =>
      if a in w.volumes && w.volumes[a].doing.Busy? && !w.volumes[a].doing.stage.Done? then GoOn(w, a, fate) else w
    case LateLands(l, turnedAway) =>
      if Arrives(w, e)
      then Commit(w, l.session, l.bytes).(orphans := w.orphans + {|w.records|}) else w
  }

  function Run(w: World, es: seq<Event>): (r: World)
    requires Sane(w)
    ensures Sane(r) && w.records <= r.records && w.orphans <= r.orphans
    decreases |es|
  {
    if es == [] then w else Run(Step(w, es[0]), es[1..])
  }

  predicate Initial(w: World) {
    && |w.disk| == 1 && w.records == w.disk && w.written == []
    && w.late == {} && w.orphans == {} && w.lastWriter == None
    && forall a :: a in w.volumes ==> w.volumes[a].doing.Idle? && w.volumes[a].session.agent == a
  }

  // ----- invariants -----

  predicate Replaces(w: World, a: nat) {
    a in w.volumes && w.volumes[a].doing.Busy? && w.volumes[a].doing.stage.Replacing?
  }

  predicate Registers(w: World, a: nat) {
    a in w.volumes && w.volumes[a].doing.Busy? && w.volumes[a].doing.stage.Registering?
  }

  /** Nobody has won without having replaced the file yet. */
  ghost predicate Quiet(w: World) { forall a :: !Replaces(w, a) }

  /** The file went through exactly the bytes its writers derived from what they replaced. */
  ghost predicate DiskInv(w: World) {
    && |w.disk| == |w.written| + 1
    && forall i :: 0 <= i < |w.written| ==> w.disk[i + 1] == Derive(w.written[i], w.disk[i])
  }

  /** Every read of this session is denied. */
  predicate Barred(w: World, s: Session) { s in w.views && w.views[s].Invalid? }

  /** A validated pair at the current version is the file's content, with no winner outstanding. */
  ghost predicate Validated(w: World, base: Bytes, version: nat)
    requires Sane(w)
  {
    version <= |w.records| && (version == |w.records| ==> base == Last(w.disk) && Quiet(w))
  }

  ghost predicate StageInv(w: World, op: Op, s: Stage)
    requires Sane(w)
  {
    match s
    case Loading(_) => true
    case Registering(c, data) =>
      && (data == Last(w.records) && !Barred(w, c.session) ==> data == Last(w.disk) && Quiet(w))
      && (w.lastWriter == Some(c.session) ==> data == Last(w.disk))
      && (forall l :: l in w.late && l.session == c.session && l.version == |w.records| ==> data == Last(w.disk))
    case Posting(_, base, version) => Validated(w, base, version) && !op.Look?
    case Replacing(c, base, _) =>
      && base == Last(w.disk) && Derive(op, base) == Last(w.records)
      && w.lastWriter == Some(c.session) && Last(w.disk) != Last(w.records)
    case Done(_) => false
  }

  ghost predicate VolumeInv(w: World, a: nat)
    requires Sane(w) && a in w.volumes
  {
    var v := w.volumes[a];
    && v.session.agent == a
    && (v.doing.Busy? ==> StageInv(w, v.doing.op, v.doing.stage) && SessionOf(v.doing.stage) == v.session)
  }

  ghost predicate LateInv(w: World)
    requires Sane(w)
  {
    forall l :: l in w.late ==> Validated(w, l.base, l.version)
  }

  ghost predicate VolumesInv(w: World)
    requires Sane(w)
  {
    forall a :: a in w.volumes ==> VolumeInv(w, a)
  }

  /** The records without the orphaned ones, in order. */
  function Kept(records: seq<Bytes>, orphans: set<nat>): seq<Bytes> {
    if records == [] then []
    else
      var n := |records| - 1;
      Kept(records[..n], orphans) + if n in orphans then [] else [records[n]]
  }

  /** The file has held exactly the records that are not orphaned, in version order, except for the one whose
      winner has still to replace it. */
  ghost predicate ChainInv(w: World) {
    && (forall i :: i in w.orphans ==> i < |w.records|)
    && (Quiet(w) ==> Kept(w.records, w.orphans) == w.disk)
    && (forall a :: Replaces(w, a) ==>
          |w.records| - 1 !in w.orphans
          && Kept(w.records, w.orphans) == w.disk + [Derive(w.volumes[a].doing.op, w.volumes[a].doing.stage.base)])
  }

  ghost predicate Inv(w: World) {
    Sane(w) && DiskInv(w) && LateInv(w) && VolumesInv(w) && ChainInv(w)
  }

  lemma OneWinner(w: World, a: nat, b: nat)
    requires Sane(w) && VolumesInv(w) && Replaces(w, a) && Replaces(w, b)
    ensures a == b
  {
    assert VolumeInv(w, a) && VolumeInv(w, b);
  }

  // ----- preservation -----

  lemma {:induction false} KeptIgnoresLater(records: seq<Bytes>, orphans: set<nat>, k: nat)
    requires k >= |records|
    ensures Kept(records, orphans + {k}) == Kept(records, orphans)
    decreases |records|
  {
    if records != [] { KeptIgnoresLater(records[..|records| - 1], orphans, k); }
  }

  lemma KeptCommit(records: seq<Bytes>, orphans: set<nat>, bytes: Bytes)
    ensures |records| !in orphans ==> Kept(records + [bytes], orphans) == Kept(records, orphans) + [bytes]
    ensures Kept(records + [bytes], orphans + {|records|}) == Kept(records, orphans)
  {
    assert (records + [bytes])[..|records|] == records;
    KeptIgnoresLater(records, orphans, |records|);
  }

  lemma SameInit(a: seq<Bytes>, b: seq<Bytes>, x: Bytes)
    requires a + [x] == b + [x]
    ensures a == b
  {
    assert (a + [x])[..|a|] == a && (b + [x])[..|b|] == b;
  }

  lemma KeptOrphan(records: seq<Bytes>, orphans: set<nat>)
    requires records != [] && |records| - 1 !in orphans
    ensures Kept(records, orphans) == Kept(records, orphans + {|records| - 1}) + [Last(records)]
  {
    KeptIgnoresLater(records[..|records| - 1], orphans, |records| - 1);
  }

  predicate Unknown(w: World, a: nat) {
    a in w.volumes && w.volumes[a].session !in w.views
  }

  /** Some volume has loaded these bytes under an identity that the coordinator does not know, and not yet checked them. */
  ghost predicate Loaded(w: World, bytes: Bytes) {
    exists z :: Registers(w, z) && Unknown(w, z) && w.volumes[z].doing.stage.data == bytes
  }

  /** If this step commits, its bytes are new to those who could take them for the file's: a winner's differ from the
      file's content and from what anyone has loaded, and those of a late commit, which no replacement follows, from what
      anyone has loaded except the file's content itself. */
  ghost predicate Renews(w: World, e: Event)
    requires Sane(w)
  {
    && (Wins(w, e) ==>
          var bytes := Sent(w.volumes[e.volume].doing).bytes;
          bytes != Last(w.disk) && !Loaded(w, bytes))
    && (Arrives(w, e) ==> e.cas.bytes == Last(w.disk) || !Loaded(w, e.cas.bytes))
  }

  /** Every step does. */
  ghost predicate Renewing(w: World, es: seq<Event>)
    requires Sane(w)
    decreases |es|
  {
    es == [] || (Renews(w, es[0]) && Renewing(Step(w, es[0]), es[1..]))
  }

  /** A commit at the current version, with nobody outstanding, by session `s`. */
  lemma CommitKeeps(w: World, s: Session, bytes: Bytes)
    requires Inv(w) && Quiet(w) && (bytes == Last(w.disk) || !Loaded(w, bytes))
    requires forall a :: Registers(w, a) && w.volumes[a].session == s ==> w.volumes[a].doing.stage.data == Last(w.disk)
    ensures var w' := Commit(w, s, bytes);
      Sane(w') && DiskInv(w') && LateInv(w') && VolumesInv(w') && Quiet(w')
  {
    var w' := Commit(w, s, bytes);
    assert forall a :: Replaces(w', a) ==> Replaces(w, a);
    forall a | a in w'.volumes ensures VolumeInv(w', a) {
      assert VolumeInv(w, a);
      assert !Replaces(w, a);
      assert Registers(w, a) && Unknown(w, a) && w.volumes[a].doing.stage.data == bytes ==> Loaded(w, bytes);
    }
  }

  /** Moving one volume to a stage that fits keeps the rest, if it neither becomes nor was a pending winner. */
  lemma VolumeMoves(w: World, a: nat, v: Volume)
    requires Inv(w) && a in w.volumes && !Replaces(w, a)
    requires v.session.agent == a
    requires v.doing.Busy? ==> StageInv(w, v.doing.op, v.doing.stage) && SessionOf(v.doing.stage) == v.session && !v.doing.stage.Replacing?
    ensures Inv(w.(volumes := w.volumes[a := v]))
  {
    var w' := w.(volumes := w.volumes[a := v]);
    assert forall b :: Replaces(w', b) <==> Replaces(w, b);
    assert Quiet(w') <==> Quiet(w);
    forall b | b in w'.volumes ensures VolumeInv(w', b) {
      if b != a {
        assert VolumeInv(w, b);
      }
    }
  }

  lemma StartKeeps(w: World, a: nat, op: Op, reacquire: bool)
    requires Inv(w) && a in w.volumes && w.volumes[a].doing.Idle?
    ensures Inv(Begin(w, a, op, reacquire))
  {
    assert VolumeInv(w, a);
    VolumeMoves(w, a, Begin(w, a, op, reacquire).volumes[a]);
  }

  lemma LoadKeeps(w: World, a: nat, fate: Fate)
    requires Inv(w) && a in w.volumes && w.volumes[a].doing.Busy? && w.volumes[a].doing.stage.Loading?
    ensures Inv(GoOn(w, a, fate))
  {
    assert VolumeInv(w, a);
    VolumeMoves(w, a, GoOn(w, a, fate).volumes[a]);
  }

  /** A clean pre-read proves the pair: the bytes are the file's content and no winner is outstanding. */
  lemma CleanNow(w: World, a: nat, lag: bool)
    requires Inv(w) && Registers(w, a)
    requires !PreReadAt(w, w.volumes[a].session, w.volumes[a].doing.stage.data, lag).1.denied
    ensures w.volumes[a].doing.stage.data == Last(w.disk) && Quiet(w)
  {
    assert VolumeInv(w, a);
    forall b ensures !Replaces(w, b) {
      assert b in w.volumes ==> VolumeInv(w, b);
    }
  }

  lemma ViewsKeep(w: World, views: map<Session, View>)
    requires Inv(w) && forall s :: Barred(w, s) ==> s in views && views[s].Invalid?
    ensures Inv(w.(views := views))
  {
    var w' := w.(views := views);
    assert forall b :: Replaces(w', b) <==> Replaces(w, b);
    assert Quiet(w') <==> Quiet(w);
    forall b | b in w'.volumes ensures VolumeInv(w', b) {
      assert VolumeInv(w, b);
    }
  }

  /** The stage a pre-read leads to fits the world, whatever it did to the views. */
  lemma RegisterFits(w: World, a: nat, fate: Fate)
    requires Inv(w) && Registers(w, a)
    ensures var v := GoOn(w, a, fate).volumes[a];
      v.session.agent == a && (v.doing.Busy? ==> StageInv(w, v.doing.op, v.doing.stage) && SessionOf(v.doing.stage) == v.session && !v.doing.stage.Replacing?)
  {
    assert VolumeInv(w, a);
    if fate.Served? && !PreReadAt(w, w.volumes[a].session, w.volumes[a].doing.stage.data, fate.lag).1.denied {
      CleanNow(w, a, fate.lag);
    }
  }

  lemma RegisterKeeps(w: World, a: nat, fate: Fate)
    requires Inv(w) && Registers(w, a)
    ensures Inv(GoOn(w, a, fate))
  {
    var w' := GoOn(w, a, fate);
    RegisterFits(w, a, fate);
    VolumeMoves(w, a, w'.volumes[a]);
    var moved := w.(volumes := w.volumes[a := w'.volumes[a]]);
    ViewsKeep(moved, w'.views);
    assert w' == moved.(views := w'.views);
  }

  lemma ReplaceKeeps(w: World, a: nat, fate: Fate)
    requires Inv(w) && Replaces(w, a) && !fate.Broken?
    ensures Inv(GoOn(w, a, fate))
  {
    var w' := GoOn(w, a, fate);
    assert VolumeInv(w, a);
    forall b ensures !Replaces(w', b) {
      if Replaces(w', b) { OneWinner(w, a, b); }
    }
    assert w'.disk == w.disk + [Last(w.records)];
    assert !Quiet(w);
    forall b | b in w'.volumes ensures VolumeInv(w', b) {
      assert VolumeInv(w, b);
      if Replaces(w, b) { OneWinner(w, a, b); }
    }
  }

  /** A replacement that fails leaves the file as it was and the commit orphaned. */
  lemma FailedReplaceKeeps(w: World, a: nat)
    requires Inv(w) && Replaces(w, a)
    ensures Inv(GoOn(w, a, Broken))
  {
    var w' := GoOn(w, a, Broken);
    assert VolumeInv(w, a);
    forall b ensures !Replaces(w', b) {
      if Replaces(w', b) { OneWinner(w, a, b); }
    }
    assert !Quiet(w);
    KeptOrphan(w.records, w.orphans);
    SameInit(w.disk, Kept(w'.records, w'.orphans), Last(w.records));
    forall b | b in w'.volumes ensures VolumeInv(w', b) {
      assert VolumeInv(w, b);
      if Replaces(w, b) { OneWinner(w, a, b); }
    }
  }

  lemma LateKeeps(w: World, l: LateCas)
    requires Inv(w) && Arrives(w, LateLands(l, false)) && Renews(w, LateLands(l, false))
    ensures Inv(Step(w, LateLands(l, false)))
  {
    forall a | Registers(w, a) && w.volumes[a].session == l.session ensures w.volumes[a].doing.stage.data == Last(w.disk) {
      assert VolumeInv(w, a);
    }
    CommitKeeps(w, l.session, l.bytes);
    KeptCommit(w.records, w.orphans, l.bytes);
    OrphanedKeeps(Commit(w, l.session, l.bytes), w.orphans + {|w.records|});
  }

  lemma OrphanedKeeps(w: World, orphans: set<nat>)
    requires Sane(w) && DiskInv(w) && LateInv(w) && VolumesInv(w) && Quiet(w)
    requires (forall i :: i in orphans ==> i < |w.records|) && Kept(w.records, orphans) == w.disk
    ensures Inv(w.(orphans := orphans))
  {
    var w' := w.(orphans := orphans);
    assert forall b :: Replaces(w', b) <==> Replaces(w, b);
    forall b | b in w'.volumes ensures VolumeInv(w', b) {
      assert VolumeInv(w, b);
    }
  }

  /** A post whose answer is lost is remembered as one that may still land. */
  lemma LostKeeps(w: World, l: LateCas)
    requires Inv(w) && Validated(w, l.base, l.version)
    requires forall a :: Registers(w, a) ==> w.volumes[a].session != l.session
    ensures Inv(w.(late := w.late + {l}))
  {
    var w' := w.(late := w.late + {l});
    assert forall b :: Replaces(w', b) <==> Replaces(w, b);
    assert Quiet(w') <==> Quiet(w);
    forall b | b in w'.volumes ensures VolumeInv(w', b) {
      assert VolumeInv(w, b);
    }
  }

  lemma WinKeeps(w: World, a: nat, fate: Fate)
    requires Inv(w) && Wins(w, Go(a, fate)) && Renews(w, Go(a, fate))
    ensures Inv(GoOn(w, a, fate))
  {
    var v, w' := w.volumes[a], GoOn(w, a, fate);
    assert VolumeInv(w, a);
    var s := v.doing.stage;
    var bytes := Derive(v.doing.op, s.base);
    var won := Commit(w, s.c.session, bytes);
    forall b | Registers(w, b) ensures w.volumes[b].session != s.c.session {
      assert VolumeInv(w, b);
    }
    CommitKeeps(w, s.c.session, bytes);
    assert w' == won.(volumes := w.volumes[a := Volume(s.c.session, Busy(v.doing.op, Replacing(s.c, s.base, s.version)), v.outcome)]);
    KeptCommit(w.records, w.orphans, bytes);
    BecomesWinner(won, a, v.doing.op, s);
  }

  /** The volume whose commit was just recorded becomes the one pending winner. */
  lemma BecomesWinner(w: World, a: nat, op: Op, s: Stage)
    requires Sane(w) && DiskInv(w) && LateInv(w) && VolumesInv(w) && Quiet(w)
    requires a in w.volumes && s.Posting? && s.c.session == w.volumes[a].session && s.base == Last(w.disk)
    requires Last(w.records) == Derive(op, s.base) && w.lastWriter == Some(s.c.session) && Last(w.disk) != Last(w.records)
    requires forall l :: l in w.late ==> l.version < |w.records|
    requires forall b :: b in w.volumes && w.volumes[b].doing.Busy? && w.volumes[b].doing.stage.Posting? ==> w.volumes[b].doing.stage.version < |w.records|
    requires forall i :: i in w.orphans ==> i < |w.records| - 1
    requires Kept(w.records, w.orphans) == w.disk + [Derive(op, s.base)]
    ensures Inv(w.(volumes := w.volumes[a := Volume(s.c.session, Busy(op, Replacing(s.c, s.base, s.version)), w.volumes[a].outcome)]))
  {
    var w' := w.(volumes := w.volumes[a := Volume(s.c.session, Busy(op, Replacing(s.c, s.base, s.version)), w.volumes[a].outcome)]);
    assert Replaces(w', a);
    assert VolumeInv(w, a);
    assert forall b :: Replaces(w', b) ==> b == a || Replaces(w, b);
    forall b | b in w'.volumes && b != a ensures VolumeInv(w', b) {
      assert VolumeInv(w, b);
    }
  }

  lemma PostKeeps(w: World, a: nat, fate: Fate)
    requires Inv(w) && a in w.volumes && w.volumes[a].doing.Busy? && w.volumes[a].doing.stage.Posting?
    requires Renews(w, Go(a, fate))
    ensures Inv(GoOn(w, a, fate))
  {
    var v, w' := w.volumes[a], GoOn(w, a, fate);
    var s := v.doing.stage;
    assert VolumeInv(w, a);
    if fate.Served? && s.version == |w.records| {
      WinKeeps(w, a, fate);
    } else if fate.LostAnswer? {
      var l := LateCas(s.c.session, s.version, s.base, Derive(v.doing.op, s.base));
      forall b | Registers(w, b) ensures w.volumes[b].session != l.session {
        assert VolumeInv(w, b);
      }
      LostKeeps(w, l);
      var w1 := w.(late := w.late + {l});
      VolumeMoves(w1, a, w'.volumes[a]);
    } else {
      VolumeMoves(w, a, w'.volumes[a]);
    }
  }

  lemma StepKeeps(w: World, e: Event)
    requires Inv(w) && Renews(w, e)
    ensures Inv(Step(w, e))
  {
    match e
    case Start(a, op, reacquire) =>
      if a in w.volumes && w.volumes[a].doing.Idle? { StartKeeps(w, a, op, reacquire); }
    case LateLands(l, _) =>
      if Arrives(w, e) { LateKeeps(w, l); }
    case Go(a, fate) =>
      if a in w.volumes && w.volumes[a].doing.Busy? && !w.volumes[a].doing.stage.Done? {
        match w.volumes[a].doing.stage
        case Loading(_) => LoadKeeps(w, a, fate);
        case Registering(_, _) => RegisterKeeps(w, a, fate);
        case Posting(_, _, _) => PostKeeps(w, a, fate);
        case Replacing(_, _, _) => if fate.Broken? { FailedReplaceKeeps(w, a); } else { ReplaceKeeps(w, a, fate); }
      }
  }

  lemma {:induction false} RunKeeps(w: World, es: seq<Event>)
    requires Inv(w) && Renewing(w, es)
    ensures Inv(Run(w, es))
    decreases |es|
  {
    if es != [] {
      StepKeeps(w, es[0]);
      RunKeeps(Step(w, es[0]), es[1..]);
    }
  }

  lemma Reached(w: World, es: seq<Event>)
    requires Initial(w) && Renewing(w, es)
    ensures Inv(Run(w, es))
  {
    RunKeeps(w, es);
  }

  // ----- the theorems -----

  /** The bytes after applying the operations in order. */
  function Fold(start: Bytes, ops: seq<Op>): Bytes {
    if ops == [] then start else Derive(ops[|ops| - 1], Fold(start, ops[..|ops| - 1]))
  }

  lemma {:induction false} ChainIsFold(disk: seq<Bytes>, ops: seq<Op>, k: nat)
    requires k < |disk| == |ops| + 1
    requires forall i :: 0 <= i < |ops| ==> disk[i + 1] == Derive(ops[i], disk[i])
    ensures disk[k] == Fold(disk[0], ops[..k])
  {
    if k > 0 {
      ChainIsFold(disk, ops, k - 1);
      assert ops[..k][..k - 1] == ops[..k - 1];
    }
  }

  /** In every interleaving of reads and optimistic writes, with lost answers, late commits and the
      recent-own-commit window and failing replacements, as long as every commit renews: the file is always the fold of
      the operations that replaced it, in order, each applied to exactly the bytes it was derived
      from, and there is never more than one winner that has yet to replace it. */
  lemma {:induction false} NoLostUpdateOnDisk(w: World, es: seq<Event>)
    requires Initial(w) && Renewing(w, es)
    ensures var r := Run(w, es);
      && Last(r.disk) == Fold(w.disk[0], r.written)
      && forall a, b :: Replaces(r, a) && Replaces(r, b) ==> a == b
  {
    Reached(w, es);
    var r := Run(w, es);
    DiskStart(w, es);
    ChainIsFold(r.disk, r.written, |r.written|);
    assert r.written[..|r.written|] == r.written;
    forall a, b | Replaces(r, a) && Replaces(r, b) ensures a == b {
      OneWinner(r, a, b);
    }
  }

  lemma {:induction false} DiskStart(w: World, es: seq<Event>)
    requires Sane(w)
    ensures Run(w, es).disk[0] == w.disk[0]
    decreases |es|
  {
    if es != [] {
      DiskStart(Step(w, es[0]), es[1..]);
    }
  }

  /** Nobody pending: the file is the current version, the fold of all winning operations in version order. */
  ghost predicate UpToDate(r: World, start: Bytes) {
    && Sane(r) && |r.written| == |r.records| - 1
    && Last(r.disk) == Last(r.records) == Fold(start, r.written)
  }

  /** One winner pending: the file is the previous version, and the current one is that winner's, derived from it. */
  ghost predicate OneBehind(r: World) {
    && Sane(r) && |r.records| > 1 && Last(r.disk) == r.records[|r.records| - 2]
    && exists a :: Replaces(r, a) && Last(r.records) == Derive(r.volumes[a].doing.op, Last(r.disk))
         && forall b :: Replaces(r, b) ==> b == a
  }

  /** In every such run the file has gone through exactly the committed contents that are not orphaned, in version
      order, but for the one whose winner is still pending. If no committed content repeats, an orphaned content never
      reaches it. */
  lemma FileIsKeptRecords(w: World, es: seq<Event>)
    requires Initial(w) && Renewing(w, es)
    ensures var r := Run(w, es);
      && (Quiet(r) ==> r.disk == Kept(r.records, r.orphans))
      && (!Quiet(r) ==> r.disk + [Last(r.records)] == Kept(r.records, r.orphans))
      && (Distinct(r.records) ==> forall i :: i in r.orphans ==> i < |r.records| && r.records[i] !in r.disk)
  {
    Reached(w, es);
    KeptNow(Run(w, es));
  }

  lemma KeptNow(r: World)
    requires Inv(r)
    ensures Quiet(r) ==> r.disk == Kept(r.records, r.orphans)
    ensures !Quiet(r) ==> r.disk + [Last(r.records)] == Kept(r.records, r.orphans)
    ensures Distinct(r.records) ==> forall i :: i in r.orphans ==> i < |r.records| && r.records[i] !in r.disk
  {
    if !Quiet(r) {
      var a :| Replaces(r, a);
      assert VolumeInv(r, a);
    }
    if Distinct(r.records) {
      forall i | i in r.orphans ensures r.records[i] !in r.disk {
        OrphanNotKept(r.records, r.orphans, i);
      }
    }
  }

  lemma {:induction false} KeptFrom(records: seq<Bytes>, orphans: set<nat>, x: Bytes)
    ensures x in Kept(records, orphans) ==> exists i :: 0 <= i < |records| && i !in orphans && records[i] == x
    decreases |records|
  {
    if records != [] { KeptFrom(records[..|records| - 1], orphans, x); }
  }

  lemma OrphanNotKept(records: seq<Bytes>, orphans: set<nat>, i: nat)
    requires Distinct(records) && i < |records| && i in orphans
    ensures records[i] !in Kept(records, orphans)
  {
    KeptFrom(records, orphans, records[i]);
  }

  lemma {:induction false} KeptLength(records: seq<Bytes>, orphans: set<nat>)
    ensures |Kept(records, orphans)| <= |records|
    ensures |Kept(records, orphans)| == |records| <==> forall i :: 0 <= i < |records| ==> i !in orphans
    ensures |Kept(records, orphans)| == |records| ==> Kept(records, orphans) == records
    decreases |records|
  {
    if records != [] { KeptLength(records[..|records| - 1], orphans); }
  }

  /** With nobody pending, the file is the current version and the fold of all winners exactly if no commit was
      orphaned. With a winner pending and no orphan, it is the previous version, and the current one is that
      winner's, derived from it. */
  lemma {:induction false} FileTracksVersion(w: World, es: seq<Event>)
    requires Initial(w) && Renewing(w, es)
    ensures Quiet(Run(w, es)) ==> (UpToDate(Run(w, es), w.disk[0]) <==> Run(w, es).orphans == {})
    ensures !Quiet(Run(w, es)) && Run(w, es).orphans == {} ==> OneBehind(Run(w, es))
  {
    NoLostUpdateOnDisk(w, es);
    Reached(w, es);
    var r := Run(w, es);
    KeptLength(r.records, r.orphans);
    if !Quiet(r) {
      var a :| Replaces(r, a);
      assert VolumeInv(r, a);
    }
  }

  /** In every such run a hash-checked read that is not denied proves its pair: the bytes are the file's content, and
      no winner is outstanding. */
  lemma CleanReadValidates(w: World, es: seq<Event>, a: nat, lag: bool)
    requires Initial(w) && Renewing(w, es) && Registers(Run(w, es), a)
    requires !PreReadAt(Run(w, es), Run(w, es).volumes[a].session, Run(w, es).volumes[a].doing.stage.data, lag).1.denied
    ensures Run(w, es).volumes[a].doing.stage.data == Last(Run(w, es).disk) && Quiet(Run(w, es))
  {
    Reached(w, es);
    CleanNow(Run(w, es), a, lag);
  }

  // ----- the condition is exact -----

  /** Nobody's read can be clean without proving its pair: not that of a volume that has loaded, and not that of
      a newcomer, who would load the file's content now. */
  ghost predicate Sealed(w: World) {
    && Sane(w) && (Last(w.disk) == Last(w.records) ==> Quiet(w))
    && (forall z :: Registers(w, z) && !PreReadAt(w, w.volumes[z].session, w.volumes[z].doing.stage.data, true).1.denied ==>
          w.volumes[z].doing.stage.data == Last(w.disk) && Quiet(w))
  }

  ghost predicate SealedThroughout(w: World, es: seq<Event>)
    requires Sane(w)
    decreases |es|
  {
    Sealed(w) && (es == [] || SealedThroughout(Step(w, es[0]), es[1..]))
  }

  lemma InvIsSealed(w: World)
    requires Inv(w)
    ensures Sealed(w)
  {
    forall a ensures Replaces(w, a) ==> Last(w.disk) != Last(w.records) {
      assert a in w.volumes ==> VolumeInv(w, a);
    }
    forall z | Registers(w, z) && !PreReadAt(w, w.volumes[z].session, w.volumes[z].doing.stage.data, true).1.denied
      ensures w.volumes[z].doing.stage.data == Last(w.disk) && Quiet(w)
    {
      CleanNow(w, z, true);
    }
  }

  /** A load under an unknown identity survives the commit of another session, and now matches the record. */
  lemma LoadPasses(w: World, e: Event, z: nat)
    requires Inv(w) && (Wins(w, e) || Arrives(w, e)) && Registers(w, z) && Unknown(w, z)
    requires w.volumes[z].doing.stage.data == Last(Step(w, e).records)
    requires Arrives(w, e) ==> e.cas.bytes != Last(w.disk)
    ensures var r := Step(w, e);
      && Registers(r, z) && Unknown(r, z) && r.volumes[z] == w.volumes[z] && r.disk == w.disk
      && !PreReadAt(r, r.volumes[z].session, r.volumes[z].doing.stage.data, true).1.denied
      && SessionOf(r.volumes[z].doing.stage) == r.volumes[z].session && (Wins(w, e) ==> e.volume != z && Replaces(r, e.volume))
  {
    assert VolumeInv(w, z);
    if Wins(w, e) { assert VolumeInv(w, e.volume); }
  }

  lemma WinUnseals(w: World, e: Event)
    requires Inv(w) && Wins(w, e) && !Renews(w, e)
    ensures !Sealed(Step(w, e))
  {
    var w', bytes := Step(w, e), Sent(w.volumes[e.volume].doing).bytes;
    assert Replaces(w', e.volume) && Last(w'.records) == bytes;
    if Loaded(w, bytes) {
      var z :| Registers(w, z) && Unknown(w, z) && w.volumes[z].doing.stage.data == bytes;
      LoadPasses(w, e, z);
    }
  }

  lemma ArrivalUnseals(w: World, e: Event)
    requires Inv(w) && Arrives(w, e) && !Renews(w, e)
    ensures !Sealed(Step(w, e))
  {
    var z :| Registers(w, z) && Unknown(w, z) && w.volumes[z].doing.stage.data == e.cas.bytes;
    LoadPasses(w, e, z);
  }

  lemma {:induction false} RenewingFrom(w: World, es: seq<Event>)
    requires Inv(w)
    ensures Renewing(w, es) <==> SealedThroughout(w, es)
    decreases |es|
  {
    InvIsSealed(w);
    if es != [] {
      if Renews(w, es[0]) {
        StepKeeps(w, es[0]);
        RenewingFrom(Step(w, es[0]), es[1..]);
      } else if Wins(w, es[0]) {
        WinUnseals(w, es[0]);
      } else {
        ArrivalUnseals(w, es[0]);
      }
    }
  }

  /** A run renews at every commit exactly if at no point in it a read can be clean without its bytes being the file's
      content with nobody outstanding. */
  lemma RenewingExactly(w: World, es: seq<Event>)
    requires Initial(w)
    ensures Renewing(w, es) <==> SealedThroughout(w, es)
  {
    RenewingFrom(w, es);
  }

  // ----- what a caller can do: never commit what the file has held -----

  ghost predicate Unheld(w: World, e: Event) {
    (Wins(w, e) ==> Sent(w.volumes[e.volume].doing).bytes !in w.disk) && (Arrives(w, e) ==> e.cas.bytes !in w.disk)
  }

  ghost predicate NeverHeld(w: World, es: seq<Event>)
    requires Sane(w)
    decreases |es|
  {
    es == [] || (Unheld(w, es[0]) && NeverHeld(Step(w, es[0]), es[1..]))
  }

  /** What has been loaded was on disk, and what was on disk or is about to be is recorded. */
  ghost predicate Traced(w: World) {
    && (forall i :: 0 <= i < |w.disk| ==> w.disk[i] in w.records)
    && (forall z :: Registers(w, z) ==> w.volumes[z].doing.stage.data in w.disk)
    && (forall a :: Replaces(w, a) ==> Derive(w.volumes[a].doing.op, w.volumes[a].doing.stage.base) in w.records)
  }

  /** A step that moves at most volume `a`. */
  lemma TracedMoves(w: World, w': World, a: nat)
    requires Traced(w) && w.disk <= w'.disk && w.records <= w'.records
    requires forall i :: |w.disk| <= i < |w'.disk| ==> w'.disk[i] in w.records
    requires forall b :: b in w'.volumes && b != a ==> b in w.volumes && w'.volumes[b] == w.volumes[b]
    requires Registers(w', a) ==> w'.volumes[a].doing.stage.data in w'.disk
    requires Replaces(w', a) ==> Derive(w'.volumes[a].doing.op, w'.volumes[a].doing.stage.base) in w'.records
    ensures Traced(w')
  {
    assert forall x :: x in w.records ==> x in w'.records;
    assert forall x :: x in w.disk ==> x in w'.disk;
    assert forall i :: 0 <= i < |w.disk| ==> w'.disk[i] == w.disk[i];
    assert forall b :: b != a && Registers(w', b) ==> Registers(w, b);
    assert forall b :: b != a && Replaces(w', b) ==> Replaces(w, b);
  }

  lemma PostTraced(w: World, a: nat, fate: Fate)
    requires Sane(w) && a in w.volumes && w.volumes[a].doing.Busy? && w.volumes[a].doing.stage.Posting?
    ensures var w', d := GoOn(w, a, fate), w.volumes[a].doing;
      && w'.disk == w.disk && !Registers(w', a)
      && (Replaces(w', a) ==>
            w'.volumes[a].doing.op == d.op && w'.volumes[a].doing.stage.base == d.stage.base && Last(w'.records) == Derive(d.op, d.stage.base))
  {
  }

  lemma LookTraced(w: World, a: nat, fate: Fate)
    requires Sane(w) && a in w.volumes && w.volumes[a].doing.Busy? && (w.volumes[a].doing.stage.Loading? || w.volumes[a].doing.stage.Registering?)
    ensures var w' := GoOn(w, a, fate);
      w'.disk == w.disk && !Replaces(w', a) && (Registers(w', a) ==> w'.volumes[a].doing.stage.data == Last(w.disk))
  {
  }

  lemma ReplaceTraced(w: World, a: nat, fate: Fate)
    requires Sane(w) && Replaces(w, a)
    ensures var w' := GoOn(w, a, fate);
      && !Replaces(w', a) && !Registers(w', a)
      && (w'.disk == w.disk || w'.disk == w.disk + [Derive(w.volumes[a].doing.op, w.volumes[a].doing.stage.base)])
  {
  }

  lemma OwnTraced(w: World, a: nat, fate: Fate)
    requires Sane(w) && Traced(w) && a in w.volumes && w.volumes[a].doing.Busy? && !w.volumes[a].doing.stage.Done?
    ensures Traced(GoOn(w, a, fate))
  {
    if w.volumes[a].doing.stage.Posting? {
      PostTraced(w, a, fate);
    } else if Replaces(w, a) {
      ReplaceTraced(w, a, fate);
    } else {
      LookTraced(w, a, fate);
    }
    TracedMoves(w, GoOn(w, a, fate), a);
  }

  lemma StepTraced(w: World, e: Event)
    requires Sane(w) && Traced(w)
    ensures Traced(Step(w, e))
  {
    match e
    case Start(a, _, _) => TracedMoves(w, Step(w, e), a);
    case LateLands(_, _) =>
      assert forall a :: Registers(Step(w, e), a) ==> Registers(w, a);
      assert forall a :: Replaces(Step(w, e), a) ==> Replaces(w, a);
    case Go(a, fate) =>
      if a in w.volumes && w.volumes[a].doing.Busy? && !w.volumes[a].doing.stage.Done? { OwnTraced(w, a, fate); }
  }

  lemma {:induction false} NeverHeldFrom(w: World, es: seq<Event>)
    requires Sane(w) && Traced(w) && NeverHeld(w, es)
    ensures Renewing(w, es)
    decreases |es|
  {
    if es != [] {
      StepTraced(w, es[0]);
      NeverHeldFrom(Step(w, es[0]), es[1..]);
    }
  }

  /** Commits whose bytes the file has never held renew. An orphan's bytes may be committed again: a retry of an
      unconfirmed commit is covered. */
  lemma NeverHeldRenews(w: World, es: seq<Event>)
    requires Initial(w) && NeverHeld(w, es)
    ensures Renewing(w, es)
  {
    NeverHeldFrom(w, es);
  }

  lemma NewContent(records: seq<Bytes>, bytes: Bytes)
    requires Distinct(records + [bytes])
    ensures bytes !in records
  {
    var all := records + [bytes];
    assert forall i :: 0 <= i < |records| ==> all[i] == records[i] && all[i] != all[|records|];
  }

  lemma {:induction false} DistinctFrom(w: World, es: seq<Event>)
    requires Sane(w) && Traced(w) && Distinct(Run(w, es).records)
    ensures NeverHeld(w, es)
    decreases |es|
  {
    if es != [] {
      var w', last := Step(w, es[0]), Run(w, es).records;
      assert w'.records <= last;
      assert forall i :: 0 <= i < |w'.records| ==> w'.records[i] == last[i];
      if Wins(w, es[0]) { NewContent(w.records, Sent(w.volumes[es[0].volume].doing).bytes); }
      if Arrives(w, es[0]) { NewContent(w.records, es[0].cas.bytes); }
      StepTraced(w, es[0]);
      DistinctFrom(w', es[1..]);
    }
  }

  /** In particular those that never repeat. */
  lemma DistinctRenews(w: World, es: seq<Event>)
    requires Initial(w) && Distinct(Run(w, es).records)
    ensures NeverHeld(w, es) && Renewing(w, es)
  {
    DistinctFrom(w, es);
    NeverHeldFrom(w, es);
  }

  /** Which reads are denied: those of a session that lost its standing, and those of other bytes than the record, unless the
      session itself made the last commit, just now. */
  lemma DeniedExactly(w: World, s: Session, data: Bytes, lag: bool)
    requires Sane(w)
    ensures PreReadAt(w, s, data, lag).1.denied <==>
      Barred(w, s) || (data != Last(w.records) && !(s in w.views && lag && w.lastWriter == Some(s)))
  {
  }

  // ----- unconfirmed commits -----

  lemma {:induction false} LateStays(w: World, es: seq<Event>)
    requires Sane(w)
    ensures w.late <= Run(w, es).late
    decreases |es|
  {
    if es != [] { LateStays(Step(w, es[0]), es[1..]); }
  }

  /** A commit whose answer is lost is reported unconfirmed. Whatever happens before it arrives, it takes effect
      exactly if it is not turned away and its version is then still current, which is if nobody else committed
      meanwhile; it never touches the file, and if it took effect it is an orphan. */
  lemma LostCommitExactly(w: World, a: nat, es: seq<Event>, turnedAway: bool)
    requires Sane(w) && a in w.volumes && w.volumes[a].doing.Busy? && w.volumes[a].doing.stage.Posting?
    ensures var l := Sent(w.volumes[a].doing);
      var lost := Step(w, Go(a, LostAnswer));
      var before := Run(lost, es);
      var after := Step(before, LateLands(l, turnedAway));
      && lost.volumes[a].outcome == Some(CommitUnconfirmed) && lost.volumes[a].doing.Idle?
      && lost.records == w.records && lost.disk == w.disk && after.disk == before.disk
      && (after.records == before.records + [l.bytes] && |before.records| in after.orphans <==> |before.records| == l.version && !turnedAway)
      && (|before.records| != l.version || turnedAway ==> after == before)
      && (l.version == |w.records| ==> (|before.records| == l.version <==> before.records == w.records))
  {
    LateStays(Step(w, Go(a, LostAnswer)), es);
  }

  /** The calls volume `a` makes during `es` until the operation it is in is over. */
  function Calls(w: World, es: seq<Event>, a: nat): seq<Exchange>
    requires Sane(w)
    decreases |es|
  {
    if es == [] || a !in w.volumes || !w.volumes[a].doing.Busy? then []
    else
      var d := w.volumes[a].doing;
      var now := if es[0].Go? && es[0].volume == a && !d.stage.Done? then [Serve(w, d.op, d.stage, es[0].fate).1] else [];
      now + Calls(Step(w, es[0]), es[1..], a)
  }

  /** Only its own calls move an operation. */
  lemma OthersLeaveAlone(w: World, e: Event, a: nat)
    requires Sane(w) && a in w.volumes && w.volumes[a].doing.Busy? && !(e.Go? && e.volume == a)
    ensures a in Step(w, e).volumes && Step(w, e).volumes[a].doing == w.volumes[a].doing
  {
  }

  lemma OwnCallMoves(w: World, a: nat, fate: Fate)
    requires Sane(w) && a in w.volumes && w.volumes[a].doing.Busy? && !w.volumes[a].doing.stage.Done?
    ensures var d := w.volumes[a].doing;
      var t := Next(d.op, d.stage, Serve(w, d.op, d.stage, fate).1);
      var after := Step(w, Go(a, fate));
      a in after.volumes && after.volumes[a].doing == if t.Done? then Idle else Busy(d.op, t)
  {
  }

  /** However the calls of other volumes interleave, the calls of one operation are a conforming sequence, so the
      budgets of `VolumeProtocol` hold inside every run. */
  lemma {:induction false} WritesConform(w: World, es: seq<Event>, a: nat) returns (t: Stage)
    requires Sane(w) && a in w.volumes && w.volumes[a].doing.Busy?
    ensures Conforms(w.volumes[a].doing.op, w.volumes[a].doing.stage, Calls(w, es, a), t)
    decreases |es|
  {
    var op, s := w.volumes[a].doing.op, w.volumes[a].doing.stage;
    if es == [] {
      t := s;
    } else {
      var w', rest := Step(w, es[0]), es[1..];
      var later := Calls(w', rest, a);
      if es[0].Go? && es[0].volume == a && !s.Done? {
        OwnCallMoves(w, a, es[0].fate);
        var x := Serve(w, op, s, es[0].fate).1;
        t := Next(op, s, x);
        if !t.Done? {
          t := WritesConform(w', rest, a);
        }
        assert Calls(w, es, a) == [x] + later && ([x] + later)[1..] == later;
      } else {
        if !(es[0].Go? && es[0].volume == a) {
          OthersLeaveAlone(w, es[0], a);
        }
        t := WritesConform(w', rest, a);
        assert Calls(w, es, a) == [] + later == later;
      }
    }
  }

  /** A whole operation inside any run: at most 9 posts, 81 comparand reads and one file replacement. */
  lemma WritesWithinBudget(w: World, es: seq<Event>, a: nat, op: Op, reacquire: bool)
    requires Sane(w) && a in w.volumes && w.volumes[a].doing.Idle?
    ensures var calls := Calls(Step(w, Start(a, op, reacquire)), es, a);
      Posts(calls) <= 9 && Loads(calls) <= 81 && VolumeProtocol.Replaces(calls) <= 1
  {
    var begun := Step(w, Start(a, op, reacquire));
    var t := WritesConform(begun, es, a);
    WholeWriteBudget(op, begun.volumes[a].session, Calls(begun, es, a), t);
  }

  // ----- what happens where a commit does not renew -----

  lemma {:induction false} RunThen(w: World, xs: seq<Event>, ys: seq<Event>)
    requires Sane(w)
    ensures Run(w, xs + ys) == Run(Run(w, xs), ys)
    decreases |xs|
  {
    if xs == [] {
      assert xs + ys == ys;
    } else {
      assert (xs + ys)[1..] == xs[1..] + ys;
      RunThen(Step(w, xs[0]), xs[1..], ys);
    }
  }

  const ANSWERED := Served(false)

  /** `a` is about to post against the current version. */
  ghost predicate Ready(w: World, a: nat, session: Session, op: Op, base: Bytes) {
    && a in w.volumes && w.volumes[a].session == session && w.volumes[a].doing.Busy? && w.volumes[a].doing.op == op
    && w.volumes[a].doing.stage.Posting? && w.volumes[a].doing.stage.base == base
    && w.volumes[a].doing.stage.version == |w.records| && SessionOf(w.volumes[a].doing.stage) == session
  }

  lemma ChecksClean(w: World, a: nat)
    requires Sane(w) && Unknown(w, a) && Registers(w, a) && w.volumes[a].doing.op.Update?
    requires w.volumes[a].doing.stage.data == Last(w.records) && SessionOf(w.volumes[a].doing.stage) == w.volumes[a].session
    ensures var r := Step(w, Go(a, ANSWERED));
      && r.disk == w.disk && r.records == w.records && r.late == w.late && r.views.Keys == w.views.Keys + {w.volumes[a].session}
      && r.volumes.Keys == w.volumes.Keys && Ready(r, a, w.volumes[a].session, w.volumes[a].doing.op, Last(w.records))
      && forall b :: b in w.volumes && b != a ==> r.volumes[b] == w.volumes[b]
  {
  }

  lemma WinsNow(w: World, a: nat, session: Session, op: Op, base: Bytes)
    requires Sane(w) && Ready(w, a, session, op, base) && op.Update? && session in w.views
    ensures var r := Step(w, Go(a, ANSWERED));
      && r.disk == w.disk && r.records == w.records + [Derive(op, base)]
      && r.views.Keys == w.views.Keys && r.volumes.Keys == w.volumes.Keys
      && Replaces(r, a) && r.volumes[a].doing.op == op && r.volumes[a].doing.stage.base == base && r.volumes[a].doing.stage.version == |w.records|
      && forall b :: b in w.volumes && b != a ==> r.volumes[b] == w.volumes[b]
  {
  }

  lemma LosesNow(w: World, a: nat, session: Session, op: Op, base: Bytes)
    requires Sane(w) && Ready(w, a, session, op, base)
    ensures var r := Step(w, Go(a, LostAnswer));
      && r.disk == w.disk && r.records == w.records && a in r.volumes
      && r.volumes[a].doing.Idle? && r.volumes[a].outcome == Some(CommitUnconfirmed)
      && LateCas(session, |w.records|, base, Derive(op, base)) in r.late
  {
  }

  lemma RunTwo(w: World, e: Event, f: Event)
    requires Sane(w)
    ensures Run(w, [e, f]) == Step(Step(w, e), f)
  {
    assert [e, f][1..] == [f];
    RunOne(Step(w, e), f);
  }

  /** A stateless volume whose loaded bytes are the recorded content commits its update. */
  lemma LoadedWins(w: World, a: nat)
    requires Sane(w) && Unknown(w, a) && Registers(w, a) && w.volumes[a].doing.op.Update?
    requires w.volumes[a].doing.stage.data == Last(w.records) && SessionOf(w.volumes[a].doing.stage) == w.volumes[a].session
    ensures var r := Run(w, [Go(a, ANSWERED), Go(a, ANSWERED)]);
      && r.disk == w.disk && r.records == w.records + [Derive(w.volumes[a].doing.op, Last(w.records))]
      && r.views.Keys == w.views.Keys + {w.volumes[a].session} && r.volumes.Keys == w.volumes.Keys
      && Replaces(r, a) && r.volumes[a].doing.op == w.volumes[a].doing.op && r.volumes[a].doing.stage.base == Last(w.records)
      && r.volumes[a].doing.stage.version == |w.records|
      && forall b :: b in w.volumes && b != a ==> r.volumes[b] == w.volumes[b]
  {
    ChecksClean(w, a);
    WinsNow(Step(w, Go(a, ANSWERED)), a, w.volumes[a].session, w.volumes[a].doing.op, Last(w.records));
    RunTwo(w, Go(a, ANSWERED), Go(a, ANSWERED));
  }

  lemma StartsAndLoads(w: World, a: nat, op: Op)
    requires Sane(w) && a in w.volumes && w.volumes[a].doing.Idle? && op.Update?
    ensures var r := Run(w, [Start(a, op, false), Go(a, ANSWERED)]);
      && r == w.(volumes := r.volumes) && r.volumes.Keys == w.volumes.Keys && r.volumes[a].session == w.volumes[a].session
      && Registers(r, a) && r.volumes[a].doing.stage.data == Last(w.disk) && SessionOf(r.volumes[a].doing.stage) == w.volumes[a].session
      && r.volumes[a].doing.op == op
      && forall b :: b in w.volumes && b != a ==> r.volumes[b] == w.volumes[b]
  {
    RunTwo(w, Start(a, op, false), Go(a, ANSWERED));
  }

  // ----- lost races are retried -----

  /** The coordinator knows this identity, or may still hear of it. */
  ghost predicate Known(w: World, s: Session) { s in w.views || exists l :: l in w.late && l.session == s }

  /** A call that has lost a race or been denied, and is about to read again. */
  predicate Retrying(w: World, a: nat) {
    && a in w.volumes && w.volumes[a].doing.Busy? && w.volumes[a].doing.stage.Loading?
    && w.volumes[a].doing.stage.c.attempts + w.volumes[a].doing.stage.c.denied > 0
  }

  /** Identities are only known once minted, and a retry runs under one that is not known yet. */
  ghost predicate MintInv(w: World, a: nat) {
    && a in w.volumes && w.volumes[a].session.agent == a
    && (w.volumes[a].doing.Busy? && !w.volumes[a].doing.stage.Done? ==> SessionOf(w.volumes[a].doing.stage) == w.volumes[a].session)
    && (forall s :: Known(w, s) && s.agent == a ==> s.mint <= w.volumes[a].session.mint)
    && (forall s :: Known(w, s) && s.agent == a && Retrying(w, a) ==> s.mint < w.volumes[a].session.mint)
  }

  ghost predicate MintsInv(w: World) { forall a :: a in w.volumes ==> MintInv(w, a) }

  /** A step of `a` makes known at most its own session. */
  lemma OwnKnown(w: World, a: nat, fate: Fate, s: Session)
    requires Sane(w) && a in w.volumes && w.volumes[a].doing.Busy? && !w.volumes[a].doing.stage.Done? && Known(GoOn(w, a, fate), s)
    ensures Known(w, s) || s == SessionOf(w.volumes[a].doing.stage)
  {
    var w' := GoOn(w, a, fate);
    if s !in w'.views {
      var l :| l in w'.late && l.session == s;
      assert l in w.late || l.session == SessionOf(w.volumes[a].doing.stage);
    }
  }

  lemma OwnMints(w: World, a: nat, fate: Fate)
    requires Sane(w) && MintsInv(w) && a in w.volumes && w.volumes[a].doing.Busy? && !w.volumes[a].doing.stage.Done?
    ensures MintsInv(GoOn(w, a, fate))
  {
    var w' := GoOn(w, a, fate);
    assert MintInv(w, a);
    forall b | b in w'.volumes ensures MintInv(w', b) {
      assert MintInv(w, b);
      forall s | Known(w', s) && s.agent == b
        ensures s.mint <= w'.volumes[b].session.mint && (Retrying(w', b) ==> s.mint < w'.volumes[b].session.mint)
      {
        OwnKnown(w, a, fate, s);
        assert b != a ==> Retrying(w', b) == Retrying(w, b);
      }
    }
  }

  lemma StepMints(w: World, e: Event)
    requires Sane(w) && MintsInv(w)
    ensures MintsInv(Step(w, e))
  {
    var w' := Step(w, e);
    if e.Go? && e.volume in w.volumes && w.volumes[e.volume].doing.Busy? && !w.volumes[e.volume].doing.stage.Done? {
      OwnMints(w, e.volume, e.fate);
    } else {
      forall s | Known(w', s) ensures Known(w, s) {
        assert s !in w.views && s in w'.views ==> Arrives(w, e) && e.cas.session == s;
      }
      forall b | b in w'.volumes ensures MintInv(w', b) {
        assert MintInv(w, b);
        assert Retrying(w', b) ==> Retrying(w, b);
      }
    }
  }

  lemma {:induction false} RunMints(w: World, es: seq<Event>)
    requires Sane(w) && MintsInv(w)
    ensures MintsInv(Run(w, es))
    decreases |es|
  {
    if es != [] {
      StepMints(w, es[0]);
      RunMints(Step(w, es[0]), es[1..]);
    }
  }

  lemma LoadsNow(w: World, a: nat)
    requires Sane(w) && a in w.volumes && w.volumes[a].doing.Busy? && w.volumes[a].doing.stage.Loading?
    requires SessionOf(w.volumes[a].doing.stage) == w.volumes[a].session
    ensures var r := Step(w, Go(a, ANSWERED));
      && r == w.(volumes := r.volumes) && Registers(r, a) && r.volumes[a].doing.stage.data == Last(w.disk)
      && r.volumes[a].doing.op == w.volumes[a].doing.op && r.volumes[a].session == w.volumes[a].session
      && SessionOf(r.volumes[a].doing.stage) == r.volumes[a].session
  {
  }

  /** The update of volume `a` has landed: recorded, in the file, and acknowledged. */
  ghost predicate LandedFrom(w: World, r: World, a: nat, op: Op) {
    && Sane(w) && r.records == w.records + [Derive(op, Last(w.records))] && r.disk == w.disk + [Derive(op, Last(w.records))]
    && a in r.volumes && r.volumes[a].outcome == Some(Landed(|w.records| + 1))
  }

  /** Four answered calls in a row, under an unknown identity and with an up-to-date file, land an update. */
  lemma AttemptLands(w: World, a: nat)
    requires Sane(w) && Unknown(w, a) && w.volumes[a].doing.Busy? && w.volumes[a].doing.stage.Loading? && w.volumes[a].doing.op.Update?
    requires SessionOf(w.volumes[a].doing.stage) == w.volumes[a].session && Last(w.disk) == Last(w.records)
    ensures LandedFrom(w, Run(w, [Go(a, ANSWERED)] + ([Go(a, ANSWERED), Go(a, ANSWERED)] + [Go(a, ANSWERED)])), a, w.volumes[a].doing.op)
  {
    var go := Go(a, ANSWERED);
    LoadsNow(w, a);
    LoadedLands(Step(w, go), a);
    RunThen(w, [go], [go, go] + [go]);
    RunOne(w, go);
  }

  lemma LoadedLands(w: World, a: nat)
    requires Sane(w) && Unknown(w, a) && Registers(w, a) && w.volumes[a].doing.op.Update?
    requires w.volumes[a].doing.stage.data == Last(w.records) && SessionOf(w.volumes[a].doing.stage) == w.volumes[a].session
    ensures LandedFrom(w, Run(w, [Go(a, ANSWERED), Go(a, ANSWERED)] + [Go(a, ANSWERED)]), a, w.volumes[a].doing.op)
  {
    var go := Go(a, ANSWERED);
    LoadedWins(w, a);
    ReplacesNow(Run(w, [go, go]), a);
    RunThen(w, [go, go], [go]);
  }

  /** In every run a call that has lost up to eight races, or has just been denied, lands as soon as it is left alone with an
      up-to-date file: losing is no reason to give up. */
  lemma RetryLands(w: World, es: seq<Event>, a: nat)
    requires Sane(w) && MintsInv(w) && Retrying(Run(w, es), a) && Run(w, es).volumes[a].doing.op.Update?
    requires Last(Run(w, es).disk) == Last(Run(w, es).records)
    ensures LandedFrom(Run(w, es), Run(Run(w, es), [Go(a, ANSWERED)] + ([Go(a, ANSWERED), Go(a, ANSWERED)] + [Go(a, ANSWERED)])),
                       a, Run(w, es).volumes[a].doing.op)
  {
    var now := Run(w, es);
    RunMints(w, es);
    assert MintInv(now, a);
    assert now.volumes[a].session in now.views ==> Known(now, now.volumes[a].session);
    AttemptLands(now, a);
  }

  lemma BeginsUnknown(w: World, a: nat, op: Op, reacquire: bool)
    requires Sane(w) && MintInv(w, a) && w.volumes[a].doing.Idle? && (reacquire || op.At?)
    ensures var r := Step(w, Start(a, op, reacquire));
      && Unknown(r, a) && r == w.(volumes := r.volumes) && r.volumes[a].doing.Busy? && r.volumes[a].doing.op == op
      && r.volumes[a].doing.stage.Loading? && SessionOf(r.volumes[a].doing.stage) == r.volumes[a].session
  {
    var s := Remint(w.volumes[a].session);
    assert s in w.views ==> Known(w, s);
  }

  /** An operation that re-acquires, and every write at a given version, starts under an identity the coordinator has never
      heard of; so such an update lands if it is left alone with an up-to-date file. */
  lemma ReacquiredStartsUnknown(w: World, es: seq<Event>, a: nat, op: Op, reacquire: bool)
    requires Sane(w) && MintsInv(w) && a in Run(w, es).volumes && Run(w, es).volumes[a].doing.Idle? && (reacquire || op.At?)
    ensures Unknown(Step(Run(w, es), Start(a, op, reacquire)), a)
    ensures op.Update? && Last(Run(w, es).disk) == Last(Run(w, es).records) ==>
      LandedFrom(Run(w, es), Run(Step(Run(w, es), Start(a, op, reacquire)), [Go(a, ANSWERED)] + ([Go(a, ANSWERED), Go(a, ANSWERED)] + [Go(a, ANSWERED)])), a, op)
  {
    RunMints(w, es);
    assert MintInv(Run(w, es), a);
    ReacquiresNow(Run(w, es), a, op, reacquire);
  }

  lemma ReacquiresNow(w: World, a: nat, op: Op, reacquire: bool)
    requires Sane(w) && MintInv(w, a) && w.volumes[a].doing.Idle? && (reacquire || op.At?)
    ensures Unknown(Step(w, Start(a, op, reacquire)), a)
    ensures op.Update? && Last(w.disk) == Last(w.records) ==>
      LandedFrom(w, Run(Step(w, Start(a, op, reacquire)), [Go(a, ANSWERED)] + ([Go(a, ANSWERED), Go(a, ANSWERED)] + [Go(a, ANSWERED)])), a, op)
  {
    BeginsUnknown(w, a, op, reacquire);
    if op.Update? && Last(w.disk) == Last(w.records) { AttemptLands(Step(w, Start(a, op, reacquire)), a); }
  }

  /** An update that finds its version overtaken, turned away or not, goes on under a new identity until the ninth loss. */
  lemma LostRaceIsRetried(w: World, a: nat, fate: Fate)
    requires Sane(w) && a in w.volumes && w.volumes[a].doing.Busy? && w.volumes[a].doing.op.Update? && w.volumes[a].doing.stage.Posting?
    requires (fate.Served? && w.volumes[a].doing.stage.version < |w.records|) || fate.TurnedAway?
    ensures var before, r := w.volumes[a].doing, Step(w, Go(a, fate));
      && r.disk == w.disk && r.records == w.records && a in r.volumes
      && (before.stage.c.attempts < 8 ==>
            && Retrying(r, a) && r.volumes[a].doing.op == before.op && r.volumes[a].session == Remint(before.stage.c.session)
            && r.volumes[a].doing.stage.c.attempts == before.stage.c.attempts + 1)
      && (before.stage.c.attempts == 8 ==> r.volumes[a].outcome == Some(RetriesExhausted(9, |w.records|)))
  {
  }

  /** A run against what the error message says: the caller is told that its commit did not land, the commit then
      takes effect, and the file stays behind the version. */
  lemma UnconfirmedYetCommitted(w: World, a: nat, op: Op)
    requires Sane(w) && Unknown(w, a) && w.volumes[a].doing.Idle? && op.Update? && Last(w.disk) == Last(w.records)
    ensures var l := LateCas(w.volumes[a].session, |w.records|, Last(w.records), Derive(op, Last(w.records)));
      var r := Run(w, [Start(a, op, false), Go(a, ANSWERED)] + ([Go(a, ANSWERED), Go(a, LostAnswer)] + [LateLands(l, false)]));
      && a in r.volumes && r.volumes[a].outcome == Some(CommitUnconfirmed) && r.volumes[a].doing.Idle?
      && r.records == w.records + [l.bytes] && r.disk == w.disk && |w.records| in r.orphans
  {
    var l := LateCas(w.volumes[a].session, |w.records|, Last(w.records), Derive(op, Last(w.records)));
    StartsAndLoads(w, a, op);
    var loaded := Run(w, [Start(a, op, false), Go(a, ANSWERED)]);
    LoadedThenLost(loaded, a);
    var lost := Run(loaded, [Go(a, ANSWERED), Go(a, LostAnswer)]);
    RunOne(lost, LateLands(l, false));
    ArrivesNow(lost, l);
    RunThen(loaded, [Go(a, ANSWERED), Go(a, LostAnswer)], [LateLands(l, false)]);
    RunThen(w, [Start(a, op, false), Go(a, ANSWERED)], [Go(a, ANSWERED), Go(a, LostAnswer)] + [LateLands(l, false)]);
  }

  lemma ArrivesNow(w: World, l: LateCas)
    requires Sane(w) && l in w.late && l.version == |w.records|
    ensures var r := Step(w, LateLands(l, false));
      r.volumes == w.volumes && r.disk == w.disk && r.records == w.records + [l.bytes] && |w.records| in r.orphans
  {
  }

  lemma LoadedThenLost(w: World, a: nat)
    requires Sane(w) && Unknown(w, a) && Registers(w, a) && w.volumes[a].doing.op.Update?
    requires w.volumes[a].doing.stage.data == Last(w.records) && SessionOf(w.volumes[a].doing.stage) == w.volumes[a].session
    ensures var r := Run(w, [Go(a, ANSWERED), Go(a, LostAnswer)]);
      && r.disk == w.disk && r.records == w.records && a in r.volumes
      && r.volumes[a].doing.Idle? && r.volumes[a].outcome == Some(CommitUnconfirmed)
      && LateCas(w.volumes[a].session, |w.records|, Last(w.records), Derive(w.volumes[a].doing.op, Last(w.records))) in r.late
  {
    ChecksClean(w, a);
    LosesNow(Step(w, Go(a, ANSWERED)), a, w.volumes[a].session, w.volumes[a].doing.op, Last(w.records));
    RunTwo(w, Go(a, ANSWERED), Go(a, LostAnswer));
  }

  /** The other way to stay behind: a winner whose file replacement fails. */
  lemma FailedReplaceStaysBehind(w: World, a: nat, op: Op)
    requires Sane(w) && Unknown(w, a) && w.volumes[a].doing.Idle? && op.Update? && Last(w.disk) == Last(w.records)
    ensures var r := Run(w, Winning(a, op) + [Go(a, Broken)]);
      && a in r.volumes && r.volumes[a].outcome == Some(IoFailure)
      && r.records == w.records + [Derive(op, Last(w.records))] && r.disk == w.disk && |w.records| in r.orphans
  {
    WinsFromScratch(w, a, op);
    var won := Run(w, Winning(a, op));
    RunOne(won, Go(a, Broken));
    FailsNow(won, a);
    RunThen(w, Winning(a, op), [Go(a, Broken)]);
  }

  lemma FailsNow(w: World, a: nat)
    requires Sane(w) && Replaces(w, a)
    ensures var r := Step(w, Go(a, Broken));
      && a in r.volumes && r.volumes[a].outcome == Some(IoFailure)
      && r.records == w.records && r.disk == w.disk && |w.records| - 1 in r.orphans
  {
  }

  lemma RunOne(w: World, e: Event)
    requires Sane(w)
    ensures Run(w, [e]) == Step(w, e)
  {
    assert [e][1..] == [];
  }

  function Winning(a: nat, op: Op): seq<Event> {
    [Start(a, op, false), Go(a, ANSWERED)] + [Go(a, ANSWERED), Go(a, ANSWERED)]
  }

  /** A stateless volume facing an up-to-date file runs its update up to the point where it has won. */
  lemma WinsFromScratch(w: World, a: nat, op: Op)
    requires Sane(w) && Unknown(w, a) && w.volumes[a].doing.Idle? && op.Update? && Last(w.disk) == Last(w.records)
    ensures var r := Run(w, Winning(a, op));
      && r.disk == w.disk && r.records == w.records + [Derive(op, Last(w.records))]
      && r.views.Keys == w.views.Keys + {w.volumes[a].session} && r.volumes.Keys == w.volumes.Keys
      && Replaces(r, a) && r.volumes[a].doing.op == op && r.volumes[a].doing.stage.base == Last(w.records)
      && r.volumes[a].doing.stage.version == |w.records|
      && forall b :: b in w.volumes && b != a ==> r.volumes[b] == w.volumes[b]
  {
    StartsAndLoads(w, a, op);
    var mid := Run(w, [Start(a, op, false), Go(a, ANSWERED)]);
    LoadedWins(mid, a);
    RunThen(w, [Start(a, op, false), Go(a, ANSWERED)], [Go(a, ANSWERED), Go(a, ANSWERED)]);
  }

  lemma ReplacesNow(w: World, a: nat)
    requires Sane(w) && Replaces(w, a)
    ensures var r := Run(w, [Go(a, ANSWERED)]);
      && r.disk == w.disk + [Derive(w.volumes[a].doing.op, w.volumes[a].doing.stage.base)]
      && r.records == w.records && r.views == w.views && r.volumes.Keys == w.volumes.Keys
      && r.volumes[a].outcome == Some(Landed(w.volumes[a].doing.stage.version + 1))
      && forall b :: b in w.volumes && b != a ==> r.volumes[b] == w.volumes[b]
  {
    var r := Step(w, Go(a, ANSWERED));
    assert Run(w, [Go(a, ANSWERED)]) == Run(r, []) == r;
  }

  /** The first half of the condition, at any reachable state: after a winning commit of the bytes that the file holds, any
      newcomer wins too. */
  lemma UnchangedWinIsNotAlone(w: World, es: seq<Event>, e: Event, y: nat, op: Op)
    requires Initial(w) && Wins(Run(w, es), e)
    requires Sent(Run(w, es).volumes[e.volume].doing).bytes == Last(Run(w, es).disk)
    requires Unknown(Step(Run(w, es), e), y) && Run(w, es).volumes[y].doing.Idle? && op.Update?
    ensures var r := Run(Step(Run(w, es), e), Winning(y, op));
      e.volume != y && Replaces(r, e.volume) && Replaces(r, y)
  {
    WinsFromScratch(Step(Run(w, es), e), y, op);
  }

  /** The second half, at any reachable state: after a commit of bytes that an unknown identity has loaded, that
      volume becomes a second winner or replaces a content it never read. */
  lemma LoadedSlipsThrough(w: World, es: seq<Event>, e: Event, z: nat)
    requires Initial(w) && Renewing(w, es) && (Wins(Run(w, es), e) || Arrives(Run(w, es), e))
    requires Registers(Run(w, es), z) && Unknown(Run(w, es), z) && Run(w, es).volumes[z].doing.op.Update?
    requires Run(w, es).volumes[z].doing.stage.data == Last(Step(Run(w, es), e).records)
    requires Arrives(Run(w, es), e) ==> e.cas.bytes != Last(Run(w, es).disk)
    ensures var r := Run(Step(Run(w, es), e), [Go(z, ANSWERED), Go(z, ANSWERED)]);
      && Sane(r) && Replaces(r, z)
      && (r.volumes[z].doing.stage.base != Last(r.disk) || exists a :: a != z && Replaces(r, a))
  {
    Reached(w, es);
    SlipsThrough(Run(w, es), e, z);
  }

  lemma SlipsThrough(w: World, e: Event, z: nat)
    requires Inv(w) && (Wins(w, e) || Arrives(w, e)) && Registers(w, z) && Unknown(w, z) && w.volumes[z].doing.op.Update?
    requires w.volumes[z].doing.stage.data == Last(Step(w, e).records)
    requires Arrives(w, e) ==> e.cas.bytes != Last(w.disk)
    ensures var r := Run(Step(w, e), [Go(z, ANSWERED), Go(z, ANSWERED)]);
      && Sane(r) && Replaces(r, z)
      && (r.volumes[z].doing.stage.base != Last(r.disk) || exists a :: a != z && Replaces(r, a))
  {
    LoadPasses(w, e, z);
    var r := Step(w, e);
    LoadedWins(r, z);
    if Wins(w, e) { StillReplaces(r, Run(r, [Go(z, ANSWERED), Go(z, ANSWERED)]), z, e.volume); }
  }

  lemma StillReplaces(w: World, r: World, z: nat, a: nat)
    requires Replaces(w, a) && a != z && r.volumes.Keys == w.volumes.Keys
    requires forall b :: b in w.volumes && b != z ==> r.volumes[b] == w.volumes[b]
    ensures Replaces(r, a)
  {
  }

  function Undoing(x: nat, y: nat, op: Op): seq<Event> {
    Winning(x, Update(b => b)) + (Winning(y, op) + ([Go(y, ANSWERED)] + [Go(x, ANSWERED)]))
  }

  lemma UndoingRuns(w: World, x: nat, y: nat, op: Op)
    requires Sane(w)
    ensures Run(w, Undoing(x, y, op))
      == Run(Run(Run(Run(w, Winning(x, Update(b => b))), Winning(y, op)), [Go(y, ANSWERED)]), [Go(x, ANSWERED)])
  {
    var w1 := Run(w, Winning(x, Update(b => b)));
    var w2 := Run(w1, Winning(y, op));
    RunThen(w2, [Go(y, ANSWERED)], [Go(x, ANSWERED)]);
    RunThen(w1, Winning(y, op), [Go(y, ANSWERED)] + [Go(x, ANSWERED)]);
    RunThen(w, Winning(x, Update(b => b)), Winning(y, op) + ([Go(y, ANSWERED)] + [Go(x, ANSWERED)]));
  }

  /** Both `x`, writing nothing new, and `y` have won against the same content. */
  ghost predicate Rivals(w: World, x: nat, y: nat, op: Op, before: Bytes) {
    && Sane(w) && x != y && Replaces(w, x) && Replaces(w, y)
    && w.disk == [before] && w.records == [before, before, Derive(op, before)]
    && Derive(w.volumes[x].doing.op, w.volumes[x].doing.stage.base) == before
    && w.volumes[y].doing.op == op && w.volumes[y].doing.stage.base == before && w.volumes[y].doing.stage.version == 2
  }

  lemma BecomeRivals(w: World, x: nat, y: nat, op: Op)
    requires Initial(w) && w.views == map[] && x != y && Unknown(w, x) && Unknown(w, y) && op.Update?
    ensures Rivals(Run(Run(w, Winning(x, Update(b => b))), Winning(y, op)), x, y, op, w.disk[0])
  {
    assert w.volumes[x].session.agent == x && w.volumes[y].session.agent == y;
    WinsFromScratch(w, x, Update(b => b));
    WinsFromScratch(Run(w, Winning(x, Update(b => b))), y, op);
  }

  lemma RivalsReplace(w: World, x: nat, y: nat, op: Op, before: Bytes)
    requires Rivals(w, x, y, op, before)
    ensures var r := Run(Run(w, [Go(y, ANSWERED)]), [Go(x, ANSWERED)]);
      && r.disk == [before, Derive(op, before), before] && r.records == w.records
      && y in r.volumes && r.volumes[y].outcome == Some(Landed(3))
  {
    ReplacesNow(w, y);
    ReplacesNow(Run(w, [Go(y, ANSWERED)]), x);
  }

  /** `x` commits the content it read unchanged and is delayed; `y` reads, commits its update, replaces the file
      and is told that it landed; the replacement of `x` then puts the old content back. */
  lemma UnchangedWriteUndoesAnother(w: World, x: nat, y: nat, op: Op)
    requires Initial(w) && w.views == map[] && x != y && Unknown(w, x) && Unknown(w, y) && op.Update?
    ensures var r, before := Run(w, Undoing(x, y, op)), w.disk[0];
      && r.disk == [before, Derive(op, before), before] && r.records == [before, before, Derive(op, before)]
      && y in r.volumes && r.volumes[y].outcome == Some(Landed(3))
  {
    BecomeRivals(w, x, y, op);
    RivalsReplace(Run(Run(w, Winning(x, Update(b => b))), Winning(y, op)), x, y, op, w.disk[0]);
    UndoingRuns(w, x, y, op);
  }

  function Clash(x: nat, y: nat, z: nat, back: Op, away: Op, third: Op): seq<Event> {
    [Start(z, third, false), Go(z, ANSWERED)] + (Winning(x, away) + ([Go(x, ANSWERED)] + (Winning(y, back) + [Go(z, ANSWERED), Go(z, ANSWERED)])))
  }

  lemma ClashRuns(w: World, x: nat, y: nat, z: nat, back: Op, away: Op, third: Op)
    requires Sane(w)
    ensures Run(w, Clash(x, y, z, back, away, third))
      == Run(Run(Run(Run(Run(w, [Start(z, third, false), Go(z, ANSWERED)]), Winning(x, away)), [Go(x, ANSWERED)]), Winning(y, back)),
             [Go(z, ANSWERED), Go(z, ANSWERED)])
  {
    var w1 := Run(w, [Start(z, third, false), Go(z, ANSWERED)]);
    var w2 := Run(w1, Winning(x, away));
    var w3 := Run(w2, [Go(x, ANSWERED)]);
    var us := [Go(z, ANSWERED), Go(z, ANSWERED)];
    RunThen(w3, Winning(y, back), us);
    RunThen(w2, [Go(x, ANSWERED)], Winning(y, back) + us);
    RunThen(w1, Winning(x, away), [Go(x, ANSWERED)] + (Winning(y, back) + us));
    RunThen(w, [Start(z, third, false), Go(z, ANSWERED)], Winning(x, away) + ([Go(x, ANSWERED)] + (Winning(y, back) + us)));
  }

  /** `z` has loaded the content `data`, which the record had before the one commit since. */
  ghost predicate Delayed(w: World, y: nat, z: nat, data: Bytes, third: Op) {
    && Sane(w) && Unknown(w, y) && Unknown(w, z) && y != z && w.volumes[y].session != w.volumes[z].session && w.volumes[y].doing.Idle?
    && Registers(w, z) && w.volumes[z].doing.stage.data == data && w.volumes[z].doing.op == third
    && SessionOf(w.volumes[z].doing.stage) == w.volumes[z].session
    && Last(w.disk) == Last(w.records) && |w.records| == 2 && w.records[0] == data
  }

  lemma ClashBegins(w: World, x: nat, y: nat, z: nat, away: Op, third: Op)
    requires Initial(w) && w.views == map[] && x < y < z && Unknown(w, x) && Unknown(w, y) && Unknown(w, z)
    requires away.Update? && third.Update?
    ensures var r := Run(Run(Run(w, [Start(z, third, false), Go(z, ANSWERED)]), Winning(x, away)), [Go(x, ANSWERED)]);
      Delayed(r, y, z, w.disk[0], third) && Last(r.records) == Derive(away, w.disk[0])
  {
    StartsAndLoads(w, z, third);
    var w1 := Run(w, [Start(z, third, false), Go(z, ANSWERED)]);
    WinsFromScratch(w1, x, away);
    var w2 := Run(w1, Winning(x, away));
    ReplacesNow(w2, x);
    assert w.volumes[x].session.agent == x && w.volumes[y].session.agent == y && w.volumes[z].session.agent == z;
  }

  lemma ClashEnds(w: World, y: nat, z: nat, data: Bytes, back: Op, third: Op)
    requires Delayed(w, y, z, data, third) && back.Update? && third.Update? && Derive(back, Last(w.records)) == data
    ensures var r := Run(Run(w, Winning(y, back)), [Go(z, ANSWERED), Go(z, ANSWERED)]);
      Replaces(r, y) && Replaces(r, z) && |r.records| == 4 && r.records[0] == r.records[2]
  {
    WinsFromScratch(w, y, back);
    LoadedWins(Run(w, Winning(y, back)), z);
  }

  /** `z` loads the file and is then delayed; `x` moves the content away and replaces the file; `y` moves it back
      but has not replaced the file yet. The stale load of `z` now passes the hash check, and `y` and `z`
      are two winners outstanding at once. */
  lemma StaleLoadPasses(w: World, x: nat, y: nat, z: nat, back: Op, away: Op, third: Op)
    requires Initial(w) && w.views == map[] && x < y < z && Unknown(w, x) && Unknown(w, y) && Unknown(w, z)
    requires back.Update? && away.Update? && third.Update?
    requires Derive(back, Derive(away, w.disk[0])) == w.disk[0]
    ensures var r := Run(w, Clash(x, y, z, back, away, third));
      Replaces(r, y) && Replaces(r, z) && |r.records| == 4 && r.records[0] == r.records[2]
  {
    ClashBegins(w, x, y, z, away, third);
    var mid := Run(Run(Run(w, [Start(z, third, false), Go(z, ANSWERED)]), Winning(x, away)), [Go(x, ANSWERED)]);
    ClashEnds(mid, y, z, w.disk[0], back, third);
    ClashRuns(w, x, y, z, back, away, third);
  }

  lemma RepeatedContentBreaksExclusion() returns (w: World, es: seq<Event>)
    ensures Initial(w) && !Renewing(w, es)
    ensures exists a, b :: a != b && Replaces(Run(w, es), a) && Replaces(Run(w, es), b)
  {
    var v := (k: nat) => Volume(Session(k, 0), Idle, None);
    w := World([[0]], [], [[0]], map[], None, {}, {}, map[0 := v(0), 1 := v(1), 2 := v(2)]);
    var to := (b: Byte) => Update(_ => [b]);
    es := Clash(0, 1, 2, to(0), to(1), to(2));
    StaleLoadPasses(w, 0, 1, 2, to(0), to(1), to(2));
    if Renewing(w, es) { NoLostUpdateOnDisk(w, es); }
  }
}
