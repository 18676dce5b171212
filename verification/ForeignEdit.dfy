/** The foreign-edit guard: a per-path baseline of what this instance last saw or wrote, consulted by plain writes. */
module ForeignEdit {
  import opened Foundations

  type Path = string

  /** The workspace files, and the instance's two per-path caches. */
  datatype Caches = Caches(files: map<Path, Bytes>, observed: map<Path, Digest>, committed: map<Path, Digest>)

  datatype Policy = Policy(raises: bool, managed: set<Path>, attached: bool)

  /** What the coordinator and the disk do to one plain write. */
  datatype Fate = PreEditDenied | DiskFails | PostEditDenied | Lands

  /** An outside edit of the file that slips in between a write's look at the disk and its replacement. */
  datatype Meanwhile = Nothing | Edited(content: Option<Bytes>)

  function After(files: map<Path, Bytes>, p: Path, m: Meanwhile): map<Path, Bytes> {
    match m
    case Nothing => files
    case Edited(None) => files - {p}
    case Edited(Some(bytes)) => files[p := bytes]
  }

  lemma Overwritten(files: map<Path, Bytes>, p: Path, m: Meanwhile, data: Bytes)
    ensures After(files, p, m)[p := data] == files[p := data]
  {
  }

  datatype Outcome = Done | Denied | StaleWrite | Failed | Preempted

  function HashAt(files: map<Path, Bytes>, p: Path): Option<Digest> {
    if p in files then Some(Sha256(files[p])) else None
  }

  function BaselineOf(c: Caches, p: Path): Option<Digest> { if p in c.observed then Some(c.observed[p]) else None }

  /** The file exists, was seen before, and is not what was seen. */
  predicate Diverged(c: Caches, p: Path) { p in c.observed && p in c.files && Sha256(c.files[p]) != c.observed[p] }

  predicate ForeignEditDenied(c: Caches, policy: Policy, p: Path) {
    Diverged(c, p) && policy.raises && p in policy.managed
  }

  function Loaded(c: Caches, p: Path, observe: bool): Caches {
    if observe && p in c.files then c.(observed := c.observed[p := Sha256(c.files[p])]) else c
  }

  function WriteOutcome(c: Caches, policy: Policy, p: Path, data: Bytes, fate: Fate): Outcome {
    if policy.attached && fate.PreEditDenied? then Denied
    else if ForeignEditDenied(c, policy, p) then StaleWrite
    else if fate.DiskFails? && !AlreadyThere(c, policy, p, data) then Failed
    else if policy.attached && fate.PostEditDenied? then Preempted
    else Done
  }

  predicate AlreadyThere(c: Caches, policy: Policy, p: Path, data: Bytes) {
    policy.attached && p in c.committed && c.committed[p] == Sha256(data) && HashAt(c.files, p) == Some(Sha256(data))
  }

  function Wrote(c: Caches, policy: Policy, p: Path, data: Bytes, fate: Fate, m: Meanwhile): Caches {
    var files := if AlreadyThere(c, policy, p, data) then After(c.files, p, m) else c.files[p := data];
    match WriteOutcome(c, policy, p, data, fate)
    case Done => Caches(files, c.observed[p := Sha256(data)], c.committed[p := Sha256(data)])
    case Preempted => Caches(files, c.observed[p := Sha256(data)], c.committed)
    case Denied => c
    case _ => c.(files := After(c.files, p, m))
  }

  class Volume {
    const policy: Policy
    var files: map<Path, Bytes>
    var observed: map<Path, Digest>
    var committed: map<Path, Digest>

    constructor (policy: Policy, files: map<Path, Bytes>)
      ensures this.policy == policy && View() == Caches(files, map[], map[])
    {
      this.policy, this.files, observed, committed := policy, files, map[], map[];
    }

    function View(): Caches
      reads this
    {
      Caches(files, observed, committed)
    }

    /** Every read that hands its bytes on seeds the baseline, even one the coordinator then denies; the effect
        fence's verification read does not. */
    method Load(p: Path, observe: bool) returns (data: Option<Bytes>)
      modifies this
      ensures data == if p in files then Some(files[p]) else None
      ensures View() == Loaded(old(View()), p, observe)
    {
      if p !in files {
        return None;
      }
      if observe {
        observed := observed[p := Sha256(files[p])];
      }
      data := Some(files[p]);
    }

    /** A new identity has committed nothing; what the disk looked like is kept. */
    method Remint()
      modifies this
      ensures View() == old(View()).(committed := map[])
    {
      committed := map[];
    }

    method Reacquire(p: Path) returns (data: Option<Bytes>)
      modifies this
      ensures data == if p in files then Some(files[p]) else None
      ensures View() == Loaded(old(View()).(committed := map[]), p, true)
    {
      Remint();
      data := Load(p, true);
    }

    method CheckForeignEdit(p: Path, diskHash: Option<Digest>) returns (denied: bool)
      ensures diskHash == HashAt(files, p) ==> denied == ForeignEditDenied(View(), policy, p)
    {
      var baseline := if p in observed then Some(observed[p]) else None;
      var diverged := baseline.Some? && diskHash.Some? && diskHash != baseline;
      denied := diverged && policy.raises && p in policy.managed;
    }

    /** Without a coordinator the guard still looks first; both caches move together. */
    method WriteDetached(p: Path, data: Bytes, fate: Fate, m: Meanwhile) returns (outcome: Outcome)
      requires !policy.attached
      modifies this
      ensures outcome == WriteOutcome(old(View()), policy, p, data, fate)
      ensures View() == Wrote(old(View()), policy, p, data, fate, m)
    {
      var stale := CheckForeignEdit(p, HashAt(files, p));
      Overwritten(files, p, m, data);
      files := After(files, p, m);
      if stale {
        return StaleWrite;
      }
      if fate.DiskFails? {
        return Failed;
      }
      files := files[p := data];
      RecordOwnWrite(p, Sha256(data));
      return Done;
    }

    /** The disk is hashed once under the grant; the baseline moves before the post-edit, the commit cache after. */
    method Write(p: Path, data: Bytes, fate: Fate, m: Meanwhile) returns (outcome: Outcome)
      modifies this
      ensures outcome == WriteOutcome(old(View()), policy, p, data, fate)
      ensures View() == Wrote(old(View()), policy, p, data, fate, m)
    {
      if !policy.attached {
        outcome := WriteDetached(p, data, fate, m);
        return;
      }
      if fate.PreEditDenied? {
        return Denied;
      }
      var newHash := Sha256(data);
      var diskHash := HashAt(files, p);
      var stale := CheckForeignEdit(p, diskHash);
      Overwritten(files, p, m, data);
      files := After(files, p, m);
      if stale {
        return StaleWrite;
      }
      var alreadyOnDisk := p in committed && committed[p] == newHash && diskHash == Some(newHash);
      if !alreadyOnDisk {
        if fate.DiskFails? {
          return Failed;
        }
        files := files[p := data];
      }
      observed := observed[p := newHash];
      if fate.PostEditDenied? {
        return Preempted;
      }
      committed := committed[p := newHash];
      return Done;
    }

    method RecordOwnWrite(p: Path, h: Digest)
      modifies this`observed, this`committed
      ensures observed == old(observed)[p := h] && committed == old(committed)[p := h]
    {
      committed := committed[p := h];
      observed := observed[p := h];
    }
  }

  // ----- runs -----

  /** Loads include the comparand reads of optimistic writes; OwnWrite is the file replacement after their win. */
  datatype Event =
    | Load(path: Path)
    | FenceCheck(path: Path)
    | Write(path: Path, data: Bytes, fate: Fate, meanwhile: Meanwhile)
    | OwnWrite(path: Path, data: Bytes)
    | Remint
    | OutsideEdit(path: Path, content: Option<Bytes>)

  function Step(c: Caches, policy: Policy, e: Event): Caches {
    match e
    case Load(p) => Loaded(c, p, true)
    case FenceCheck(p) => Loaded(c, p, false)
    case Write(p, data, fate, m) => Wrote(c, policy, p, data, fate, m)
    case OwnWrite(p, data) => Caches(c.files[p := data], c.observed[p := Sha256(data)], c.committed[p := Sha256(data)])
    case Remint => c.(committed := map[])
    case OutsideEdit(p, content) => c.(files := After(c.files, p, Edited(content)))
  }

  function Run(c: Caches, policy: Policy, es: seq<Event>): Caches {
    if es == [] then c else Step(Run(c, policy, es[..|es| - 1]), policy, es[|es| - 1])
  }

  /** The bytes an event put before this instance: what it loaded, or what it left on the disk itself. */
  function Touched(c: Caches, policy: Policy, e: Event, p: Path): Option<Bytes> {
    match e
    case Load(q) => if q == p && p in c.files then Some(c.files[p]) else None
    case Write(q, data, fate, _) =>
      var outcome := WriteOutcome(c, policy, q, data, fate);
      if q == p && (outcome.Done? || outcome.Preempted?) then Some(data) else None
    case OwnWrite(q, data) => if q == p then Some(data) else None
    case _ => None
  }

  /** What the instance last loaded or wrote at a path, over a whole run. */
  function LastTouched(c: Caches, policy: Policy, es: seq<Event>, p: Path): Option<Bytes> {
    if es == [] then None
    else
      var init := es[..|es| - 1];
      var now := Touched(Run(c, policy, init), policy, es[|es| - 1], p);
      if now.Some? then now else LastTouched(c, policy, init, p)
  }

  lemma TouchMovesBaseline(c: Caches, policy: Policy, e: Event, p: Path)
    ensures var now := Touched(c, policy, e, p);
      BaselineOf(Step(c, policy, e), p) == if now.Some? then Some(Sha256(now.value)) else BaselineOf(c, p)
  {
  }

  /** In every run the baseline is the hash of the last non-verification load or own write. */
  lemma {:induction false} BaselineIsLastTouch(files: map<Path, Bytes>, policy: Policy, es: seq<Event>, p: Path)
    ensures var start := Caches(files, map[], map[]);
      var last := LastTouched(start, policy, es, p);
      BaselineOf(Run(start, policy, es), p) == if last.Some? then Some(Sha256(last.value)) else None
    decreases |es|
  {
    if es != [] {
      BaselineIsLastTouch(files, policy, es[..|es| - 1], p);
      TouchMovesBaseline(Run(Caches(files, map[], map[]), policy, es[..|es| - 1]), policy, es[|es| - 1], p);
    }
  }

  /** What this identity last committed at a path: the last write that went through since it was minted. */
  function LastCommitted(c: Caches, policy: Policy, es: seq<Event>, p: Path): Option<Bytes> {
    if es == [] then None
    else
      var init, e := es[..|es| - 1], es[|es| - 1];
      match e
      case Remint => None
      case OwnWrite(q, data) => if q == p then Some(data) else LastCommitted(c, policy, init, p)
      case Write(q, data, fate, _) =>
        if q == p && WriteOutcome(Run(c, policy, init), policy, q, data, fate).Done? then Some(data)
        else LastCommitted(c, policy, init, p)
      case _ => LastCommitted(c, policy, init, p)
  }

  function CommittedOf(c: Caches, p: Path): Option<Digest> { if p in c.committed then Some(c.committed[p]) else None }

  /** In every run the commit cache is the hash of that. */
  lemma {:induction false} CommitCacheIsLastCommit(files: map<Path, Bytes>, policy: Policy, es: seq<Event>, p: Path)
    ensures var start := Caches(files, map[], map[]);
      var last := LastCommitted(start, policy, es, p);
      CommittedOf(Run(start, policy, es), p) == if last.Some? then Some(Sha256(last.value)) else None
    decreases |es|
  {
    if es != [] { CommitCacheIsLastCommit(files, policy, es[..|es| - 1], p); }
  }

  /** A write of `p` would replace an edit made by someone else since this instance last looked. */
  predicate Clobbers(files: map<Path, Bytes>, last: Option<Bytes>, p: Path) {
    last.Some? && p in files && files[p] != last.value
  }

  /** How a plain write must end, in terms of the files and of what was seen and committed before: the coordinator's
      first answer decides, then the guard, then the disk, then the coordinator's second answer. */
  ghost predicate EndsRightly(policy: Policy, clobbers: bool, skips: bool, fate: Fate, o: Outcome) {
    var stopped := policy.attached && fate.PreEditDenied?;
    var guarded := !stopped && clobbers;
    var failed := !stopped && !guarded && fate.DiskFails? && !skips;
    && (o.Denied? <==> stopped)
    && (o.StaleWrite? <==> guarded)
    && (o.Failed? <==> failed)
    && (o.Preempted? <==> !stopped && !guarded && !failed && policy.attached && fate.PostEditDenied?)
    && (o.Done? <==> !stopped && !guarded && !failed && !(policy.attached && fate.PostEditDenied?))
  }

  /** In every run, on its outcome: under "raise" on a managed path a write is refused exactly if it would replace a foreign
      edit, and otherwise only the coordinator and the disk decide. The replacement is skipped exactly if this
      identity's last commit of the path was of these bytes and they are there. */
  lemma WriteEndsExactly(files: map<Path, Bytes>, policy: Policy, es: seq<Event>, p: Path, data: Bytes, fate: Fate)
    ensures var start := Caches(files, map[], map[]);
      var now := Run(start, policy, es);
      var skips := policy.attached && LastCommitted(start, policy, es, p) == Some(data) && p in now.files && now.files[p] == data;
      var clobbers := policy.raises && p in policy.managed && Clobbers(now.files, LastTouched(start, policy, es, p), p);
      && EndsRightly(policy, clobbers, skips, fate, WriteOutcome(now, policy, p, data, fate))
      && (AlreadyThere(now, policy, p, data) <==> skips)
  {
    BaselineIsLastTouch(files, policy, es, p);
    CommitCacheIsLastCommit(files, policy, es, p);
  }

  /** In every run, on the files: a write that is refused or fails leaves what the outsiders left, and one the coordinator
      stops at once changes nothing; a write that goes through leaves its bytes, unless it skipped the replacement and
      an outsider edited the file meanwhile. So no write replaces a foreign edit that was there when it looked. */
  lemma ForeignEditsSurvive(files: map<Path, Bytes>, policy: Policy, es: seq<Event>, p: Path, data: Bytes, fate: Fate, m: Meanwhile)
    ensures var start := Caches(files, map[], map[]);
      var now := Run(start, policy, es);
      var o, after := WriteOutcome(now, policy, p, data, fate), Step(now, policy, Write(p, data, fate, m));
      && (o.Denied? ==> after == now)
      && (o.StaleWrite? || o.Failed? ==> after == now.(files := After(now.files, p, m)))
      && (o.Done? || o.Preempted? ==>
            after.files == now.files[p := data] || (HashAt(now.files, p) == Some(Sha256(data)) && after.files == After(now.files, p, m)))
      && (policy.raises && p in policy.managed && Clobbers(now.files, LastTouched(start, policy, es, p), p) && m.Nothing? ==>
            after.files == now.files)
  {
    BaselineIsLastTouch(files, policy, es, p);
  }

  /** The guard's verdict in terms of the bytes last seen: it stops a write exactly if the file is there and is not
      what was last seen. */
  lemma WritePassesExactly(files: map<Path, Bytes>, policy: Policy, es: seq<Event>, p: Path, data: Bytes, fate: Fate)
    requires policy.raises && p in policy.managed && !(policy.attached && fate.PreEditDenied?)
    ensures var start := Caches(files, map[], map[]);
      var end, last := Run(start, policy, es), LastTouched(start, policy, es, p);
      !WriteOutcome(end, policy, p, data, fate).StaleWrite? <==> last.None? || p !in end.files || end.files[p] == last.value
  {
    WriteEndsExactly(files, policy, es, p, data, fate);
  }

  function WithoutChecks(es: seq<Event>): seq<Event> {
    if es == [] then []
    else WithoutChecks(es[..|es| - 1]) + if es[|es| - 1].FenceCheck? then [] else [es[|es| - 1]]
  }

  /** Fence checks can be struck from any run: no file, cache or later verdict changes. */
  lemma {:induction false} FenceChecksAreInvisible(c: Caches, policy: Policy, es: seq<Event>)
    ensures Run(c, policy, WithoutChecks(es)) == Run(c, policy, es)
    decreases |es|
  {
    if es != [] {
      var init, last := es[..|es| - 1], es[|es| - 1];
      FenceChecksAreInvisible(c, policy, init);
      if last.FenceCheck? {
        assert WithoutChecks(es) == WithoutChecks(init);
      } else {
        assert WithoutChecks(es)[..|WithoutChecks(es)| - 1] == WithoutChecks(init);
      }
    }
  }

  /** A comparand read counts as a load although its bytes may never reach the caller: after a foreign edit, a
      fence check keeps the write denied, while an optimistic write's own read lets the next plain write through. */
  lemma ComparandReadAbsolves(c: Caches, policy: Policy, p: Path)
    requires ForeignEditDenied(c, policy, p)
    ensures ForeignEditDenied(Step(c, policy, FenceCheck(p)), policy, p)
    ensures !ForeignEditDenied(Step(c, policy, Load(p)), policy, p)
  {
  }

  /** The guard looks before it replaces. An edit in between never changes its verdict, and survives a write that
      goes through exactly if the write skipped the replacement, or both put the same bytes. */
  lemma EditInWindowIsLost(c: Caches, policy: Policy, p: Path, data: Bytes, fate: Fate, content: Option<Bytes>)
    requires var outcome := WriteOutcome(c, policy, p, data, fate); outcome.Done? || outcome.Preempted?
    ensures var files := Wrote(c, policy, p, data, fate, Edited(content)).files;
      (if p in files then Some(files[p]) else None) == content <==> AlreadyThere(c, policy, p, data) || content == Some(data)
  {
  }
}
