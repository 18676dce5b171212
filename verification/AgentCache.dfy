/** The per-agent artifact cache: entries replaced in place, invalidated one by one or all together. */
module AgentCache {
  import opened Foundations
  import opened Grants

  type ArtifactId = nat

  datatype Entry = Entry(state: Mesi, version: int, accesses: nat, acquiredAt: int, expiresAt: Option<int>)

  function Min(a: int, b: int): int { if a <= b then a else b }
  function Max(a: int, b: int): int { if a <= b then b else a }

  /** One invalidation of a cached entry; a bound lowers the version, never below zero. */
  function Lowered(e: Entry, bound: Option<int>): Entry {
    e.(state := Invalid, version := Max(if bound.Some? then Min(e.version, bound.value) else e.version, 0))
  }

  /** What an absent entry is replaced with. */
  function Placeholder(bound: Option<int>, tick: int): Entry {
    Entry(Invalid, Max(if bound.Some? then bound.value else 0, 0), 0, tick, None)
  }

  function Invalidated(e: Option<Entry>, bound: Option<int>, tick: int): Entry {
    match e
    case None => Placeholder(bound, tick)
    case Some(entry) => Lowered(entry, bound)
  }

  function AllInvalidated(entries: map<ArtifactId, Entry>, bound: Option<int>): map<ArtifactId, Entry> {
    map id | id in entries :: Lowered(entries[id], bound)
  }

  class ArtifactCache {
    var entries: map<ArtifactId, Entry>

    constructor ()
      ensures entries == map[]
    {
      entries := map[];
    }

    function Get(id: ArtifactId): (e: Option<Entry>)
      reads this
      ensures e.Some? <==> id in entries
      ensures e.Some? ==> e.value == entries[id]
    {
      if id in entries then Some(entries[id]) else None
    }

    method Put(id: ArtifactId, entry: Entry)
      modifies this
      ensures entries == old(entries)[id := entry]
    {
      entries := entries[id := entry];
    }

    method Invalidate(id: ArtifactId, bound: Option<int>, tick: int)
      modifies this
      ensures entries == old(entries)[id := Invalidated(old(Get(id)), bound, tick)]
    {
      if id !in entries {
        entries := entries[id := Entry(Invalid, Max(if bound.Some? then bound.value else 0, 0), 0, tick, None)];
        return;
      }
      var entry := entries[id];
      var nextVersion := entry.version;
      if bound.Some? {
        nextVersion := Min(entry.version, bound.value);
      }
      entries := entries[id := entry.(state := Invalid, version := Max(nextVersion, 0))];
    }

    /** Walks a snapshot of the items; creates no placeholder. */
    method InvalidateAll(bound: Option<int>)
      modifies this
      ensures entries == AllInvalidated(old(entries), bound)
    {
      var snapshot := entries;
      var rest := snapshot.Keys;
      while rest != {}
        invariant rest <= snapshot.Keys == entries.Keys
        invariant forall id :: id in snapshot ==> entries[id] == if id in rest then snapshot[id] else Lowered(snapshot[id], bound)
        decreases |rest|
      {
        var id :| id in rest;
        var entry := snapshot[id];
        var nextVersion := entry.version;
        if bound.Some? {
          nextVersion := Min(entry.version, bound.value);
        }
        entries := entries[id := entry.(state := Invalid, version := Max(nextVersion, 0))];
        rest := rest - {id};
      }
    }
  }

  // ----- lists of invalidations -----

  datatype Signal = Signal(bound: Option<int>, tick: int)

  function InvalidatedBy(e: Entry, signals: seq<Signal>): Entry
    decreases |signals|
  {
    if signals == [] then e else InvalidatedBy(Invalidated(Some(e), signals[0].bound, signals[0].tick), signals[1..])
  }

  ghost predicate IsBound(version: int, signals: seq<Signal>, m: int) {
    m == version || exists s :: s in signals && s.bound == Some(m)
  }

  /** `m` is the least of the version and all the bounds. */
  ghost predicate IsLeast(version: int, signals: seq<Signal>, m: int) {
    IsBound(version, signals, m) && forall b :: IsBound(version, signals, b) ==> m <= b
  }

  function Least(version: int, signals: seq<Signal>): int
    decreases |signals|
  {
    if signals == [] then version
    else
      var rest := Least(version, signals[1..]);
      if signals[0].bound.Some? then Min(signals[0].bound.value, rest) else rest
  }

  lemma {:induction false} LeastIsLeast(version: int, signals: seq<Signal>)
    ensures IsLeast(version, signals, Least(version, signals))
    decreases |signals|
  {
    if signals != [] {
      LeastIsLeast(version, signals[1..]);
      assert signals == [signals[0]] + signals[1..];
      forall b | IsBound(version, signals, b) ensures Least(version, signals) <= b {
        assert IsBound(version, signals[1..], b) || signals[0].bound == Some(b);
      }
      assert forall s :: s in signals[1..] ==> s in signals;
    }
  }

  lemma {:induction false} CutCommutes(version: int, cut: int, signals: seq<Signal>)
    requires Max(version, 0) == Max(cut, 0)
    ensures Max(Least(version, signals), 0) == Max(Least(cut, signals), 0)
    decreases |signals|
  {
    if signals != [] { CutCommutes(version, cut, signals[1..]); }
  }

  lemma {:induction false} LeastOfMin(version: int, bound: int, signals: seq<Signal>)
    ensures Least(Min(version, bound), signals) == Min(bound, Least(version, signals))
    decreases |signals|
  {
    if signals != [] { LeastOfMin(version, bound, signals[1..]); }
  }

  lemma {:induction false} InvalidatedByLeast(e: Entry, signals: seq<Signal>)
    requires signals != []
    ensures InvalidatedBy(e, signals) == e.(state := Invalid, version := Max(Least(e.version, signals), 0))
    decreases |signals|
  {
    var bound, rest := signals[0].bound, signals[1..];
    if bound.Some? { LeastOfMin(e.version, bound.value, rest); }
    CutCommutes(if bound.Some? then Min(e.version, bound.value) else e.version, Lowered(e, bound).version, rest);
    if rest != [] { InvalidatedByLeast(Lowered(e, bound), rest); }
  }

  /** Any non-empty list of invalidations, in any order, leaves the entry INVALID at the least of its version and
      all the bounds, cut off at zero, and changes nothing else. */
  lemma InvalidationsMeet(e: Entry, signals: seq<Signal>, least: int)
    requires signals != [] && IsLeast(e.version, signals, least)
    ensures InvalidatedBy(e, signals) == e.(state := Invalid, version := Max(least, 0))
  {
    InvalidatedByLeast(e, signals);
    LeastIsLeast(e.version, signals);
  }

  /** For an absent entry the first signal also decides the placeholder, so order shows there. */
  lemma PlaceholderFollowsFirstSignal(tick: int)
    ensures InvalidatedBy(Placeholder(None, tick), [Signal(Some(5), tick)]).version == 0
    ensures InvalidatedBy(Placeholder(Some(5), tick), [Signal(None, tick)]).version == 5
  {
    assert [Signal(Some(5), tick)][1..] == [] && [Signal(None, tick)][1..] == [];
  }

  function EachInvalidated(entries: map<ArtifactId, Entry>, ids: seq<ArtifactId>, bound: Option<int>, tick: int): map<ArtifactId, Entry>
    decreases |ids|
  {
    if ids == [] then entries
    else
      var e := if ids[0] in entries then Some(entries[ids[0]]) else None;
      EachInvalidated(entries[ids[0] := Invalidated(e, bound, tick)], ids[1..], bound, tick)
  }

  /** Invalidating everything is invalidating each present key, in any order and with any repetition. */
  lemma {:induction false} AllIsEach(entries: map<ArtifactId, Entry>, ids: seq<ArtifactId>, bound: Option<int>, tick: int)
    requires forall id :: id in ids <==> id in entries
    ensures EachInvalidated(entries, ids, bound, tick) == AllInvalidated(entries, bound)
  {
    EachAt(entries, ids, bound, tick);
  }

  lemma {:induction false} EachAt(entries: map<ArtifactId, Entry>, ids: seq<ArtifactId>, bound: Option<int>, tick: int)
    requires forall id :: id in ids ==> id in entries
    ensures EachInvalidated(entries, ids, bound, tick).Keys == entries.Keys
    ensures forall id :: id in entries ==>
      EachInvalidated(entries, ids, bound, tick)[id] == if id in ids then Lowered(entries[id], bound) else entries[id]
    decreases |ids|
  {
    if ids != [] {
      var next := entries[ids[0] := Lowered(entries[ids[0]], bound)];
      EachAt(next, ids[1..], bound, tick);
      assert ids == [ids[0]] + ids[1..];
    }
  }
}
