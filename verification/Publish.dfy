/** All-or-nothing publication of a set of files: pin, compare, commit as one batch, then stage and rename. */
module Publish {
  import opened Foundations

  type Path = string

  datatype Member = Member(path: Path, expected: int, data: Bytes)

  function Paths(ms: seq<Member>): (ps: seq<Path>)
    ensures |ps| == |ms| && forall i :: 0 <= i < |ms| ==> ps[i] == ms[i].path
  {
    seq(|ms|, i requires 0 <= i < |ms| => ms[i].path)
  }

  ghost predicate DistinctPaths(ms: seq<Member>) {
    forall i, j :: 0 <= i < j < |ms| ==> ms[i].path != ms[j].path
  }

  /** The target files, this volume's foreign-edit baseline, and the versions to report. */
  datatype Image = Image(files: map<Path, Bytes>, baseline: map<Path, Digest>, written: map<Path, int>)

  function NewVersion(m: Member, versions: map<Path, int>): int {
    if m.path in versions then versions[m.path] else m.expected + 1
  }

  /** The image once the members have been renamed into place, in order. */
  function Landed(im: Image, ms: seq<Member>, versions: map<Path, int>): Image {
    if ms == [] then im
    else
      var before, m := Landed(im, ms[..|ms| - 1], versions), ms[|ms| - 1];
      Image(before.files[m.path := m.data], before.baseline[m.path := Sha256(m.data)], before.written[m.path := NewVersion(m, versions)])
  }

  ghost predicate SameAt<V>(a: map<Path, V>, b: map<Path, V>, p: Path) {
    (p in a <==> p in b) && (p in a ==> a[p] == b[p])
  }

  ghost predicate Within(ms: seq<Member>, p: Path) { exists i :: 0 <= i < |ms| && ms[i].path == p }

  /** With distinct paths: every member's file is new, every other file is old, and so for the rest. */
  lemma {:induction false} LandedExactly(im: Image, ms: seq<Member>, versions: map<Path, int>, p: Path)
    requires DistinctPaths(ms)
    ensures var r := Landed(im, ms, versions);
      && (forall i :: 0 <= i < |ms| && ms[i].path == p ==>
            && p in r.files && r.files[p] == ms[i].data
            && p in r.baseline && r.baseline[p] == Sha256(ms[i].data)
            && p in r.written && r.written[p] == if p in versions then versions[p] else ms[i].expected + 1)
      && (!Within(ms, p) ==> SameAt(r.files, im.files, p) && SameAt(r.baseline, im.baseline, p) && SameAt(r.written, im.written, p))
    decreases |ms|
  {
    if ms != [] {
      LandedExactly(im, ms[..|ms| - 1], versions, p);
      assert Within(ms[..|ms| - 1], p) ==> Within(ms, p);
    }
  }

  // ----- the file system -----

  datatype Fault = Fine | FailsBefore | FailsAfterCreating

  /** Targets, and the staged temporaries of the current session id, one per target. Any operation may fail, and
      so may the removal of a temporary; `faults` counts the former, and `leaked` remembers the latter. */
  class Disk {
    var files: map<Path, Bytes>
    var temps: map<Path, Bytes>
    var leaked: bool
    var faults: nat
    var clock: nat
    const fault: nat -> Fault
    const stuck: nat -> bool

    constructor (files: map<Path, Bytes>, fault: nat -> Fault, stuck: nat -> bool)
      ensures this.files == files && temps == map[] && !leaked && faults == 0
    {
      this.files, this.fault, this.stuck := files, fault, stuck;
      temps, leaked, faults, clock := map[], false, 0, 0;
    }

    /** Removal with every error suppressed. */
    method Unlink(target: Path)
      modifies this`temps, this`leaked, this`clock
      ensures temps == (if target in temps then old(temps) else old(temps) - {target})
      ensures target in temps ==> leaked
      ensures old(leaked) ==> leaked
    {
      clock := clock + 1;
      if stuck(clock) && target in temps {
        leaked := true;
      } else {
        temps := temps - {target};
      }
    }

    method StageTmp(target: Path, data: Bytes) returns (ok: bool)
      modifies this`temps, this`leaked, this`faults, this`clock
      ensures old(leaked) ==> leaked
      ensures ok == fault(old(clock) + 1).Fine? && faults == old(faults) + (if ok then 0 else 1)
      ensures ok ==> temps == old(temps)[target := data] && leaked == old(leaked)
      ensures !ok ==> temps == (if target in temps then old(temps)[target := temps[target]] else old(temps) - {target}) && (target in temps ==> leaked)
    {
      clock := clock + 1;
      ok := fault(clock).Fine?;
      faults := faults + if ok then 0 else 1;
      match fault(clock)
      case Fine => temps := temps[target := data];
      case FailsBefore => Unlink(target);
      case FailsAfterCreating =>
        temps := temps[target := []];
        Unlink(target);
    }

    method ReplaceTmp(target: Path) returns (ok: bool)
      requires target in temps
      modifies this
      ensures old(leaked) ==> leaked
      ensures ok == fault(old(clock) + 1).Fine? && faults == old(faults) + (if ok then 0 else 1)
      ensures ok ==> files == old(files)[target := old(temps)[target]] && temps == old(temps) - {target} && leaked == old(leaked)
      ensures !ok ==> files == old(files) && temps == (if target in temps then old(temps) else old(temps) - {target}) && (target in temps ==> leaked)
    {
      clock := clock + 1;
      ok := fault(clock).Fine?;
      faults := faults + if ok then 0 else 1;
      if ok {
        files, temps := files[target := temps[target]], temps - {target};
      } else {
        Unlink(target);
      }
    }
  }

  // ----- the publication -----

  /** What the coordinator answers to opening the session and to committing the batch; None is a lost answer. */
  datatype Begin = Begin(degraded: bool, ok: bool, cut: map<Path, int>)
  datatype Commit = Commit(degraded: bool, ok: bool, corruption: bool, versions: map<Path, int>)

  datatype Result =
    | Published(versions: map<Path, int>)
    | PublishMaterializationError(landed: seq<Path>, notLanded: seq<Path>)
    | ValueError
    | Unavailable
    | CommitUnconfirmed
    | Refused
    | CasVersionConflict(path: Path, expected: int, pinned: Option<int>)
    | StaleView
    | SingleMember(member: Member)

  /** The first duplicate path fails the whole set. */
  method Normalize(writes: seq<Member>) returns (ok: bool)
    ensures ok <==> writes != [] && DistinctPaths(writes)
  {
    if writes == [] {
      return false;
    }
    var seen: set<Path> := {};
    for i := 0 to |writes|
      invariant DistinctPaths(writes[..i])
      invariant forall p :: p in seen <==> exists k :: 0 <= k < i && writes[k].path == p
    {
      if writes[i].path in seen {
        return false;
      }
      seen := seen + {writes[i].path};
    }
    assert writes[..|writes|] == writes;
    return true;
  }

  ghost predicate AllPinned(ms: seq<Member>, begin: Option<Begin>) {
    && begin.Some? && begin.value.ok
    && forall i :: 0 <= i < |ms| ==> ms[i].path in begin.value.cut && begin.value.cut[ms[i].path] == ms[i].expected
  }

  function PinnedAt(begin: Begin, p: Path): Option<int> { if p in begin.cut then Some(begin.cut[p]) else None }

  /** A set for the batch path, on a volume that has a coordinator. */
  ghost predicate Ready(writes: seq<Member>, text: Bytes -> bool, attached: bool) {
    |writes| > 1 && DistinctPaths(writes) && attached && forall i :: 0 <= i < |writes| ==> text(writes[i].data)
  }

  /** The coordinator pinned the set. */
  ghost predicate Opened(begin: Option<Begin>, failClosed: bool) {
    begin.Some? && begin.value.ok && !(begin.value.degraded && failClosed)
  }

  ghost predicate Answered(commit: Option<Commit>, failClosed: bool) { commit.Some? && !(commit.value.degraded && failClosed) }

  /** The pin of the `i`-th member is the first that is not what the caller expected. */
  ghost predicate FirstMoved(writes: seq<Member>, begin: Begin, i: nat) {
    && i < |writes| && PinnedAt(begin, writes[i].path) != Some(writes[i].expected)
    && forall k :: 0 <= k < i ==> PinnedAt(begin, writes[k].path) == Some(writes[k].expected)
  }

  /** How a publication must end. */
  ghost predicate EndsRightly(writes: seq<Member>, text: Bytes -> bool, attached: bool, failClosed: bool, begin: Option<Begin>,
                              commit: Option<Commit>, faultless: bool, result: Result) {
    var ready := Ready(writes, text, attached);
    var pinned := ready && Opened(begin, failClosed) && AllPinned(writes, begin);
    var won := pinned && Answered(commit, failClosed) && commit.value.ok;
    match result
    case Published(_) => won && faultless
    case PublishMaterializationError(_, _) => won && !faultless
    case SingleMember(m) => writes == [m]
    case ValueError => writes == [] || !DistinctPaths(writes) || (|writes| > 1 && attached && !ready)
    case Unavailable => |writes| > 1 && DistinctPaths(writes) && !attached
    case CommitUnconfirmed => (ready && begin.None?) || (pinned && commit.None?)
    case Refused =>
      || (ready && begin.Some? && !Opened(begin, failClosed))
      || (pinned && commit.Some? && !Answered(commit, failClosed))
      || (pinned && Answered(commit, failClosed) && !commit.value.ok && commit.value.corruption)
    case StaleView => pinned && Answered(commit, failClosed) && !commit.value.ok && !commit.value.corruption
    case CasVersionConflict(path, expected, at) =>
      && ready && Opened(begin, failClosed)
      && exists i: nat :: FirstMoved(writes, begin.value, i) && path == writes[i].path && expected == writes[i].expected && at == PinnedAt(begin.value, path)
  }

  ghost predicate Batch(result: Result) { result.Published? || result.PublishMaterializationError? }

  /** At most one kind of result is right for given inputs, so the one a publication gives is determined: in particular it is
      materialised exactly if the set was pinned as expected and the batch was won. */
  lemma RightEndIsUnique(writes: seq<Member>, text: Bytes -> bool, attached: bool, failClosed: bool, begin: Option<Begin>,
                         commit: Option<Commit>, faultless: bool, a: Result, b: Result)
    requires EndsRightly(writes, text, attached, failClosed, begin, commit, faultless, a)
    requires EndsRightly(writes, text, attached, failClosed, begin, commit, faultless, b)
    ensures a == b || (a.Published? && b.Published?) || (a.PublishMaterializationError? && b.PublishMaterializationError?)
    ensures Batch(a) <==>
      && Ready(writes, text, attached) && Opened(begin, failClosed) && AllPinned(writes, begin)
      && Answered(commit, failClosed) && commit.value.ok
  {
    if a.CasVersionConflict? && b.CasVersionConflict? {
      var i: nat :| FirstMoved(writes, begin.value, i) && a.path == writes[i].path && a.expected == writes[i].expected && a.pinned == PinnedAt(begin.value, a.path);
      var j: nat :| FirstMoved(writes, begin.value, j) && b.path == writes[j].path && b.expected == writes[j].expected && b.pinned == PinnedAt(begin.value, b.path);
      assert i == j;
    }
    MovedIsNotPinned(writes, begin);
  }

  lemma MovedIsNotPinned(writes: seq<Member>, begin: Option<Begin>)
    ensures AllPinned(writes, begin) ==> forall i: nat :: !FirstMoved(writes, begin.value, i)
  {
  }

  /** The temporaries are exactly the members' data. */
  ghost predicate Holds(temps: map<Path, Bytes>, ms: seq<Member>) {
    && (forall p :: p in temps ==> Within(ms, p))
    && (forall k :: 0 <= k < |ms| ==> ms[k].path in temps && temps[ms[k].path] == ms[k].data)
  }

  lemma HoldsRest(temps: map<Path, Bytes>, ms: seq<Member>, i: nat)
    requires i < |ms| && DistinctPaths(ms) && Holds(temps, ms[i..])
    ensures Holds(temps - {ms[i].path}, ms[i + 1..])
  {
    var rest := ms[i + 1..];
    assert forall k :: 0 <= k < |rest| ==> rest[k] == ms[i..][k + 1];
    forall p | p in temps - {ms[i].path} ensures Within(rest, p) {
      var k :| 0 <= k < |ms[i..]| && ms[i..][k].path == p;
      assert rest[k - 1].path == p;
    }
  }

  lemma LeftoverGone(before: map<Path, Bytes>, after: map<Path, Bytes>, ms: seq<Member>, i: nat)
    requires i < |ms| && Holds(before, ms[i..]) && after.Keys <= before.Keys
    ensures (forall k :: i <= k < |ms| ==> ms[k].path !in after) ==> after == map[]
  {
    if after != map[] {
      var p :| p in after;
      var k :| 0 <= k < |ms[i..]| && ms[i..][k].path == p;
      assert ms[i + k].path == p;
    }
  }

  lemma LandedStep(im: Image, ms: seq<Member>, i: nat, versions: map<Path, int>)
    requires i < |ms|
    ensures var r := Landed(im, ms[..i], versions);
      Landed(im, ms[..i + 1], versions)
      == Image(r.files[ms[i].path := ms[i].data], r.baseline[ms[i].path := Sha256(ms[i].data)], r.written[ms[i].path := NewVersion(ms[i], versions)])
  {
    assert ms[..i + 1][..i] == ms[..i];
  }

  /** Landed followed by notLanded is the write-set in order; exactly the landed prefix was renamed into place. */
  ghost predicate Materialized(before: Image, ms: seq<Member>, versions: map<Path, int>, files: map<Path, Bytes>, baseline: map<Path, Digest>, result: Result) {
    match result
    case Published(written) => Image(files, baseline, written) == Landed(before, ms, versions)
    case PublishMaterializationError(landed, notLanded) =>
      && landed + notLanded == Paths(ms) && notLanded != []
      && files == Landed(before, ms[..|landed|], versions).files
      && baseline == Landed(before, ms[..|landed|], versions).baseline
    case _ => false
  }

  lemma TornAt(before: Image, ms: seq<Member>, i: nat, versions: map<Path, int>, files: map<Path, Bytes>, baseline: map<Path, Digest>)
    requires i < |ms| && files == Landed(before, ms[..i], versions).files && baseline == Landed(before, ms[..i], versions).baseline
    ensures Materialized(before, ms, versions, files, baseline, PublishMaterializationError(Paths(ms)[..i], Paths(ms)[i..]))
  {
    assert Paths(ms)[..i] + Paths(ms)[i..] == Paths(ms);
  }

  class Volume {
    const disk: Disk
    const failClosed: bool
    const attached: bool
    var baseline: map<Path, Digest>

    constructor (disk: Disk, failClosed: bool, attached: bool)
      ensures this.disk == disk && this.failClosed == failClosed && this.attached == attached && baseline == map[]
    {
      this.disk, this.failClosed, this.attached, baseline := disk, failClosed, attached, map[];
    }

    /** Best-effort removal of what was staged for the members from `from` on. */
    method Discard(ms: seq<Member>, from: nat)
      requires from <= |ms|
      modifies disk`temps, disk`leaked, disk`clock
      ensures old(disk.leaked) ==> disk.leaked
      ensures disk.temps.Keys <= old(disk.temps).Keys
      ensures !disk.leaked ==> forall i :: from <= i < |ms| ==> ms[i].path !in disk.temps
    {
      for i := from to |ms|
        invariant old(disk.leaked) ==> disk.leaked
        invariant disk.temps.Keys <= old(disk.temps).Keys
        invariant !disk.leaked ==> forall k :: from <= k < i ==> ms[k].path !in disk.temps
      {
        disk.Unlink(ms[i].path);
      }
    }

    /** Stages every member before any target is touched. */
    method Stage(ms: seq<Member>) returns (ok: bool)
      requires DistinctPaths(ms) && disk.temps == map[] && !disk.leaked
      modifies disk`temps, disk`leaked, disk`faults, disk`clock
      ensures ok ==> !disk.leaked && Holds(disk.temps, ms)
      ensures !ok && !disk.leaked ==> disk.temps == map[]
      ensures ok <==> disk.faults == old(disk.faults)
    {
      for i := 0 to |ms|
        invariant disk.faults == old(disk.faults)
        invariant !disk.leaked && Holds(disk.temps, ms[..i])
      {
        var staged := disk.StageTmp(ms[i].path, ms[i].data);
        if !staged {
          Discard(ms[..i], 0);
          return false;
        }
      }
      assert ms[..|ms|] == ms;
      return true;
    }

    /** Cleanup after the rename of member `i` failed. */
    method DiscardRest(ms: seq<Member>, i: nat, ghost before: map<Path, Bytes>)
      requires i < |ms| && Holds(before, ms[i..]) && disk.temps.Keys <= before.Keys && (ms[i].path in disk.temps ==> disk.leaked)
      modifies disk`temps, disk`leaked, disk`clock
      ensures !disk.leaked ==> disk.temps == map[]
    {
      Discard(ms, i + 1);
      LeftoverGone(before, disk.temps, ms, i);
    }

    /** The tight rename loop over what was staged. */
    method RenameAll(ms: seq<Member>, versions: map<Path, int>) returns (result: Result)
      requires DistinctPaths(ms) && !disk.leaked && Holds(disk.temps, ms)
      modifies disk, this`baseline
      ensures !disk.leaked ==> disk.temps == map[]
      ensures Materialized(Image(old(disk.files), old(baseline), map[]), ms, versions, disk.files, baseline, result)
      ensures result.Published? <==> disk.faults == old(disk.faults)
    {
      var k, written := RenamePrefix(ms, versions);
      if k < |ms| {
        TornAt(Image(old(disk.files), old(baseline), map[]), ms, k, versions, disk.files, baseline);
        return PublishMaterializationError(Paths(ms)[..k], Paths(ms)[k..]);
      }
      assert ms[..|ms|] == ms;
      return Published(written);
    }

    /** Renames in order until one fails; `k` is how many landed. */
    method RenamePrefix(ms: seq<Member>, versions: map<Path, int>) returns (k: nat, written: map<Path, int>)
      requires DistinctPaths(ms) && !disk.leaked && Holds(disk.temps, ms)
      modifies disk, this`baseline
      ensures k <= |ms| && Image(disk.files, baseline, written) == Landed(Image(old(disk.files), old(baseline), map[]), ms[..k], versions)
      ensures !disk.leaked ==> disk.temps == map[]
      ensures k == |ms| <==> disk.faults == old(disk.faults)
    {
      k, written := 0, map[];
      ghost var before := Image(disk.files, baseline, map[]);
      assert ms[0..] == ms;
      while k < |ms|
        invariant k <= |ms| && !disk.leaked && Holds(disk.temps, ms[k..])
        invariant disk.faults == old(disk.faults)
        invariant Image(disk.files, baseline, written) == Landed(before, ms[..k], versions)
      {
        LandedStep(before, ms, k, versions);
        var ok := RenameOne(ms, k);
        if !ok { return; }
        written := written[ms[k].path := NewVersion(ms[k], versions)];
        k := k + 1;
      }
      assert ms[|ms|..] == [];
    }

    /** One rename with its bookkeeping, or the cleanup after it failed. */
    method RenameOne(ms: seq<Member>, i: nat) returns (ok: bool)
      requires i < |ms| && DistinctPaths(ms) && !disk.leaked && Holds(disk.temps, ms[i..])
      modifies disk, this`baseline
      ensures disk.faults == old(disk.faults) + (if ok then 0 else 1)
      ensures ok ==> !disk.leaked && Holds(disk.temps, ms[i + 1..])
      ensures ok ==> disk.files == old(disk.files)[ms[i].path := ms[i].data] && baseline == old(baseline)[ms[i].path := Sha256(ms[i].data)]
      ensures !ok ==> disk.files == old(disk.files) && baseline == old(baseline) && (!disk.leaked ==> disk.temps == map[])
    {
      var m := ms[i];
      ghost var temps := disk.temps;
      assert temps[m.path] == m.data by { assert ms[i..][0] == m; }
      ok := disk.ReplaceTmp(m.path);
      if ok {
        HoldsRest(temps, ms, i);
        baseline := baseline[m.path := Sha256(m.data)];
      } else {
        DiscardRest(ms, i, temps);
      }
    }

    /** After a won batch commit: landed followed by notLanded is the write-set in order, the landed files are new
        and every other file is old, whichever staging or rename fails. */
    method Materialize(ms: seq<Member>, versions: map<Path, int>) returns (result: Result)
      requires ms != [] && DistinctPaths(ms) && disk.temps == map[] && !disk.leaked
      modifies disk, this`baseline
      ensures !disk.leaked ==> disk.temps == map[]
      ensures Materialized(Image(old(disk.files), old(baseline), map[]), ms, versions, disk.files, baseline, result)
      ensures result.Published? <==> disk.faults == old(disk.faults)
    {
      var ps := Paths(ms);
      var staged := Stage(ms);
      if !staged {
        return PublishMaterializationError([], ps);
      }
      result := RenameAll(ms, versions);
    }

    /** The multi-member path. No target is touched unless every pinned version matched and the batch commit
        answered ok; the session id is fresh, so no temporary of it exists yet. */
    method AtomicPublish(writes: seq<Member>, text: Bytes -> bool, begin: Option<Begin>, commit: Option<Commit>) returns (result: Result)
      requires disk.temps == map[] && !disk.leaked
      modifies disk, this`baseline
      ensures EndsRightly(writes, text, attached, failClosed, begin, commit, disk.faults == old(disk.faults), result)
      ensures !Batch(result) ==> disk.files == old(disk.files) && disk.temps == map[] && baseline == old(baseline)
      ensures Batch(result) ==>
        Materialized(Image(old(disk.files), old(baseline), map[]), writes, commit.value.versions, disk.files, baseline, result)
      ensures !disk.leaked ==> disk.temps == map[]
    {
      var distinct := Normalize(writes);
      if !distinct {
        return ValueError;
      }
      if |writes| == 1 {
        return SingleMember(writes[0]);
      }
      if !attached {
        return Unavailable;
      }
      for i := 0 to |writes|
        invariant forall k :: 0 <= k < i ==> text(writes[k].data)
      {
        if !text(writes[i].data) {
          return ValueError;
        }
      }
      if begin.None? {
        return CommitUnconfirmed;
      }
      if (begin.value.degraded && failClosed) || !begin.value.ok {
        return Refused;
      }
      for i := 0 to |writes|
        invariant forall k :: 0 <= k < i ==> writes[k].path in begin.value.cut && begin.value.cut[writes[k].path] == writes[k].expected
      {
        var pinned := PinnedAt(begin.value, writes[i].path);
        if pinned != Some(writes[i].expected) {
          assert FirstMoved(writes, begin.value, i);
          return CasVersionConflict(writes[i].path, writes[i].expected, pinned);
        }
      }
      if commit.None? {
        return CommitUnconfirmed;
      }
      if commit.value.degraded && failClosed {
        return Refused;
      }
      if commit.value.ok {
        assert writes[..|writes|] == writes;
        result := Materialize(writes, commit.value.versions);
        return;
      }
      return if commit.value.corruption then Refused else StaleView;
    }
  }
}
