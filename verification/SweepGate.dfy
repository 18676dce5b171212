/** The rate limit on crash-recovery sweeps: a lock-free look, a check and claim under the lock, and a one-shot
    diagnostic. */
module SweepGate {
  import opened Foundations

  /** The gate check: None means no sweep yet. */
  predicate TooSoon(last: Option<int>, now: int, gate: nat) { last.Some? && now - last.value < gate }

  function Claimed(last: Option<int>, now: int): Option<int> {
    if last.None? || now >= last.value then Some(now) else last
  }

  class Sweeper {
    const gate: nat
    var lastSweep: Option<int>
    var reported: bool

    constructor (heartbeatTimeout: nat)
      ensures gate == heartbeatTimeout / 2 && lastSweep == None && !reported
    {
      gate, lastSweep, reported := heartbeatTimeout / 2, None, false;
    }

    /** Phase 1, under the lock. */
    method Claim(now: int) returns (admitted: bool)
      modifies this`lastSweep
      ensures admitted == !TooSoon(old(lastSweep), now, gate)
      ensures lastSweep == if admitted then Some(now) else old(lastSweep)
    {
      if lastSweep.Some? && now - lastSweep.value < gate {
        return false;
      }
      lastSweep := if lastSweep.None? then Some(now) else Some(if lastSweep.value >= now then lastSweep.value else now);
      return true;
    }

    /** Phase 3, under the lock again. */
    method Report(reclaimed: nat) returns (emit: bool)
      modifies this`reported
      ensures emit == (reclaimed > 0 && !old(reported)) && reported == (old(reported) || emit)
    {
      emit := reclaimed > 0 && !reported;
      if emit {
        reported := true;
      }
    }

    /** One caller alone: what the sweep reclaims, or None if it raises, comes from outside. */
    method MaybeSweep(now: int, reclaimed: Option<nat>) returns (swept: bool, emit: bool)
      modifies this
      ensures swept == !TooSoon(old(lastSweep), now, gate)
      ensures lastSweep == if swept then Some(now) else old(lastSweep)
      ensures emit == (swept && reclaimed.Some? && reclaimed.value > 0 && !old(reported))
      ensures reported == (old(reported) || emit)
    {
      var last := lastSweep;
      if last.Some? && now - last.value < gate {
        return false, false;
      }
      swept := Claim(now);
      if !swept || reclaimed.None? {
        return swept, false;
      }
      emit := Report(reclaimed.value);
    }
  }

  // ----- any number of callers, interleaved -----

  type Caller = nat

  /** How far a call has got: it has looked without the lock, or has been admitted. */
  datatype Stage = Looked(now: int, last: Option<int>) | Sweeping

  datatype State = State(last: Option<int>, reported: bool, calls: map<Caller, Stage>, admitted: seq<int>, reports: nat)

  datatype Event =
    | Look(caller: Caller, now: int)
    | TryClaim(caller: Caller)
    | Finish(caller: Caller, reclaimed: Option<nat>)

  function Step(s: State, e: Event, gate: nat): State {
    match e
    case Look(c, now) =>
      if c in s.calls || TooSoon(s.last, now, gate) then s else s.(calls := s.calls[c := Looked(now, s.last)])
    case TryClaim(c) =>
      if c !in s.calls || !s.calls[c].Looked? then s
      else if TooSoon(s.last, s.calls[c].now, gate) then s.(calls := s.calls - {c})
      else s.(last := Claimed(s.last, s.calls[c].now), admitted := s.admitted + [s.calls[c].now], calls := s.calls[c := Sweeping])
    case Finish(c, reclaimed) =>
      if c !in s.calls || !s.calls[c].Sweeping? then s
      else
        var emit := reclaimed.Some? && reclaimed.value > 0 && !s.reported;
        s.(calls := s.calls - {c}, reported := s.reported || emit, reports := s.reports + if emit then 1 else 0)
  }

  function Run(s: State, es: seq<Event>, gate: nat): State
    decreases |es|
  {
    if es == [] then s else Run(Step(s, es[0], gate), es[1..], gate)
  }

  const Start: State := State(None, false, map[], [], 0)

  ghost predicate Spaced(ticks: seq<int>, gate: nat) {
    forall i, j :: 0 <= i < j < |ticks| ==> ticks[i] + gate <= ticks[j]
  }

  /** Looks are never ahead of the last claim, which is the last admitted tick. */
  ghost predicate Inv(s: State, gate: nat) {
    && Spaced(s.admitted, gate)
    && s.last == (if s.admitted == [] then None else Some(s.admitted[|s.admitted| - 1]))
    && s.reports == (if s.reported then 1 else 0)
    && forall c :: c in s.calls && s.calls[c].Looked? && s.calls[c].last.Some? ==>
         s.last.Some? && s.calls[c].last.value <= s.last.value
  }

  lemma {:induction false} RunKeeps(s: State, es: seq<Event>, gate: nat)
    requires Inv(s, gate)
    ensures Inv(Run(s, es, gate), gate)
    decreases |es|
  {
    if es != [] { RunKeeps(Step(s, es[0], gate), es[1..], gate); }
  }

  /** However callers interleave and whatever ticks they pass, any two admitted sweeps are a gate apart. */
  lemma SweepsAreSpaced(es: seq<Event>, gate: nat, i: nat, j: nat)
    requires i < j < |Run(Start, es, gate).admitted|
    ensures Run(Start, es, gate).admitted[i] + gate <= Run(Start, es, gate).admitted[j]
  {
    RunKeeps(Start, es, gate);
  }

  /** And no sweep is missed: whatever happened before, a call whose tick is a gate after the last admitted one, and the first
      call of all, is admitted; any other is not. */
  lemma DueSweepIsAdmitted(es: seq<Event>, gate: nat, c: Caller, now: int)
    requires c !in Run(Start, es, gate).calls
    ensures var s := Run(Start, es, gate);
      var due := s.admitted == [] || now >= s.admitted[|s.admitted| - 1] + gate;
      var r := Run(s, [Look(c, now), TryClaim(c)], gate);
      && r.admitted == (if due then s.admitted + [now] else s.admitted)
      && (c in r.calls <==> due) && forall reclaimed :: c !in Step(r, Finish(c, reclaimed), gate).calls
  {
    RunKeeps(Start, es, gate);
    var s := Run(Start, es, gate);
    var looked := Step(s, Look(c, now), gate);
    assert [Look(c, now), TryClaim(c)][1..] == [TryClaim(c)] && [TryClaim(c)][1..] == [];
    assert Run(s, [Look(c, now), TryClaim(c)], gate) == Run(looked, [TryClaim(c)], gate) == Run(Step(looked, TryClaim(c), gate), [], gate);
  }

  /** The diagnostic is given at most once. */
  lemma OneReport(es: seq<Event>, gate: nat)
    ensures Run(Start, es, gate).reports <= 1
  {
    RunKeeps(Start, es, gate);
  }

  /** Some sweep of the run reclaims something. */
  predicate ReclaimsDuring(s: State, es: seq<Event>, gate: nat)
    decreases |es|
  {
    && es != []
    && (|| (es[0].Finish? && es[0].caller in s.calls && s.calls[es[0].caller].Sweeping? && es[0].reclaimed.Some? && es[0].reclaimed.value > 0)
        || ReclaimsDuring(Step(s, es[0], gate), es[1..], gate))
  }

  lemma {:induction false} ReportedFrom(s: State, es: seq<Event>, gate: nat)
    ensures Run(s, es, gate).reported <==> s.reported || ReclaimsDuring(s, es, gate)
    decreases |es|
  {
    if es != [] { ReportedFrom(Step(s, es[0], gate), es[1..], gate); }
  }

  /** It is given exactly if some sweep has reclaimed something. */
  lemma ReportedExactly(es: seq<Event>, gate: nat)
    ensures Run(Start, es, gate).reports == if ReclaimsDuring(Start, es, gate) then 1 else 0
  {
    RunKeeps(Start, es, gate);
    ReportedFrom(Start, es, gate);
  }

  /** The lock-free look never turns away a call that the locked check would admit, however late that check would
      come. */
  lemma LookNeverStealsAdmission(before: seq<Event>, after: seq<Event>, now: int, gate: nat)
    requires TooSoon(Run(Start, before, gate).last, now, gate)
    ensures TooSoon(Run(Run(Start, before, gate), after, gate).last, now, gate)
  {
    RunKeeps(Start, before, gate);
    LastGrows(Run(Start, before, gate), after, gate);
  }

  lemma {:induction false} LastGrows(s: State, es: seq<Event>, gate: nat)
    requires s.last.Some?
    ensures var last := Run(s, es, gate).last; last.Some? && s.last.value <= last.value
    decreases |es|
  {
    if es != [] { LastGrows(Step(s, es[0], gate), es[1..], gate); }
  }

  function Within(ticks: seq<int>, a: int, b: int): nat {
    if ticks == [] then 0
    else Within(ticks[..|ticks| - 1], a, b) + if a <= ticks[|ticks| - 1] <= b then 1 else 0
  }

  lemma {:induction false} WithinReaches(ticks: seq<int>, gate: nat, a: int, b: int)
    requires Spaced(ticks, gate) && gate > 0 && Within(ticks, a, b) > 0
    ensures var last := ticks[|ticks| - 1]; (Within(ticks, a, b) - 1) * gate <= (if last <= b then last else b) - a
    decreases |ticks|
  {
    var init, last := ticks[..|ticks| - 1], ticks[|ticks| - 1];
    if Within(init, a, b) > 0 {
      WithinReaches(init, gate, a, b);
      assert init[|init| - 1] == ticks[|ticks| - 2];
      if a <= last <= b {
        assert Within(init, a, b) * gate == (Within(init, a, b) - 1) * gate + gate;
      }
    }
  }

  /** Sweeps with ticks in [a, b] number at most (b - a) / gate + 1. */
  lemma SweepsInWindow(es: seq<Event>, gate: nat, a: int, b: int)
    requires gate > 0 && a <= b
    ensures Within(Run(Start, es, gate).admitted, a, b) <= (b - a) / gate + 1
  {
    RunKeeps(Start, es, gate);
    var ticks := Run(Start, es, gate).admitted;
    if Within(ticks, a, b) > 0 {
      WithinReaches(ticks, gate, a, b);
      QuotientBound(Within(ticks, a, b) - 1, gate, b - a);
    }
  }

  lemma QuotientBound(k: int, gate: nat, x: int)
    requires gate > 0 && k * gate <= x
    ensures k <= x / gate
  {
    var q := x / gate;
    assert x == q * gate + x % gate;
    assert k > q ==> k * gate >= (q + 1) * gate;
  }
}
