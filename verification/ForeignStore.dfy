/** The foreign store a binding wraps: one Postgres row or one S3 object.
    The whole write history is kept, so that claims about runs can be stated
    against it. */
module ForeignStore {
  import opened Foundations

  datatype Binding = PgRow | S3Object

  /** A row token is the trigger-minted version. An ETag depends on the bytes and,
      on buckets whose ETag is not a content digest, on a salt the store picks;
      a plain bucket always uses the same salt, so equal bytes there give equal ETags. */
  datatype Token = RowVersion(n: int) | ETag(body: Bytes, salt: nat)

  /** One landed write. `under` is the token it was conditioned on, None if it
      was on none: a writer outside the coherence layer, or a create. */
  datatype Entry = Entry(bytes: Bytes, salt: nat, under: Option<Token>)

  type Log = s: seq<Entry> | |s| > 0 witness [Entry([], 0, None)]

  datatype Store = Store(binding: Binding, log: Log, present: bool)

  /** The token the store reports while `log[i]` is its latest write. */
  function TokenAt(binding: Binding, log: Log, i: nat): Token
    requires i < |log|
  {
    match binding
    case PgRow => RowVersion(i + 1)
    case S3Object => ETag(log[i].bytes, log[i].salt)
  }

  function Current(s: Store): Token {
    TokenAt(s.binding, s.log, |s.log| - 1)
  }

  function Latest(s: Store): Bytes {
    s.log[|s.log| - 1].bytes
  }

  /** A row binding refuses a token that is not a positive integer version. */
  predicate Usable(binding: Binding, t: Token) {
    binding.S3Object? || (t.RowVersion? && t.n > 0)
  }

  /** The store's own atomic conditional write. */
  function ConditionalWrite(s: Store, expected: Token, bytes: Bytes, salt: nat): Store {
    if s.present && Current(s) == expected
    then s.(log := s.log + [Entry(bytes, salt, Some(expected))])
    else s
  }

  datatype Verdict = Converge | ReDerive | ReDrive | Conflict | Hold

  datatype Decision = Decision(verdict: Verdict, bytes: Option<Bytes>, token: Option<Token>)

  /** One re-read after an unconfirmed write, and the verdict drawn from it. */
  function Reconcile(s: Store, expected: Token, intended: Digest): Decision
    requires Usable(s.binding, expected)
  {
    if !s.present then Decision(Hold, None, None)
    else
      var seen := Sha256(Latest(s)) == intended;
      var verdict :=
        match s.binding
        case PgRow => if Current(s).n == expected.n + 1 && seen then Converge else ReDerive
        case S3Object =>
          if Current(s) == expected then ReDrive else if seen then Converge else Conflict;
      Decision(verdict, Some(Latest(s)), Some(Current(s)))
  }

  /** Every landed conditional write replaced exactly the state whose token it named. */
  ghost predicate Chained(binding: Binding, log: Log) {
    forall p :: 0 <= p < |log| && log[p].under.Some? ==>
      p > 0 && TokenAt(binding, log, p - 1) == log[p].under.value
  }

  ghost predicate DistinctBytes(log: Log) {
    forall i, j :: 0 <= i < j < |log| ==> log[i].bytes != log[j].bytes
  }

  /** A row token names one position of the history; an ETag does so while no content repeats. */
  lemma TokenNamesPosition(binding: Binding, log: Log, i: nat, j: nat)
    requires binding.PgRow? || DistinctBytes(log)
    requires i < |log| && j < |log|
    requires TokenAt(binding, log, i) == TokenAt(binding, log, j)
    ensures i == j
  {
  }

  /** What any number of landed conditional and outside writes can do to a history. */
  ghost predicate Extends(s: Store, t: Store) {
    && s.binding == t.binding
    && s.log <= t.log
    && (t.present ==> s.present)
  }

  /** Row reconciliation. `s` is the row when the write was issued under the version
      that was current, `t` the row at the re-read, any number of updates later. CONVERGE means
      exactly one update landed in between and it carries the intended bytes; without
      such an update (in particular when the write was lost and no peer wrote the same bytes)
      the verdict is never CONVERGE. */
  lemma RowConvergence(s: Store, t: Store, intended: Bytes)
    requires s.binding.PgRow? && Extends(s, t)
    ensures Reconcile(t, Current(s), Sha256(intended)).verdict == Converge <==>
            (t.present && |t.log| == |s.log| + 1 && t.log[|s.log|].bytes == intended)
    ensures (forall p :: |s.log| <= p < |t.log| ==> t.log[p].bytes != intended) ==>
              Reconcile(t, Current(s), Sha256(intended)).verdict != Converge
  {
  }

  /** Object reconciliation, while no content repeats: the verdict tells exactly whether
      anything landed since the token was read, and whether the last write is the intended one. */
  lemma ObjectConvergence(s: Store, t: Store, intended: Bytes)
    requires s.binding.S3Object? && Extends(s, t) && DistinctBytes(t.log)
    requires t.present
    ensures Reconcile(t, Current(s), Sha256(intended)).verdict == ReDrive <==> t.log == s.log
    ensures Reconcile(t, Current(s), Sha256(intended)).verdict == Converge <==>
            (|t.log| > |s.log| && Latest(t) == intended)
  {
    var here, last := |s.log| - 1, |t.log| - 1;
    assert t.log[here] == s.log[here];
    assert TokenAt(t.binding, t.log, here) == Current(s);
    if Current(t) == Current(s) {
      TokenNamesPosition(t.binding, t.log, here, last);
    }
  }

  // ----- runs of updates to a row -----

  /** An update under a version, or one by a writer outside the coherence layer; the trigger counts both. */
  datatype Update = Conditional(expected: Token, bytes: Bytes) | Outside(bytes: Bytes)

  function Updated(s: Store, u: Update): Store {
    match u
    case Conditional(expected, bytes) => ConditionalWrite(s, expected, bytes, 0)
    case Outside(bytes) => if s.present then s.(log := s.log + [Entry(bytes, 0, None)]) else s
  }

  function RowRun(s: Store, us: seq<Update>): Store
    decreases |us|
  {
    if us == [] then s else RowRun(Updated(s, us[0]), us[1..])
  }

  lemma {:induction false} RowRunKeeps(s: Store, us: seq<Update>)
    requires Chained(s.binding, s.log)
    ensures var t := RowRun(s, us);
      Extends(s, t) && Chained(t.binding, t.log) && forall p :: |s.log| <= p < |t.log| ==> exists u :: u in us && u.bytes == t.log[p].bytes
    decreases |us|
  {
    if us != [] {
      var next := Updated(s, us[0]);
      assert Chained(next.binding, next.log) by {
        assert forall p :: 0 <= p < |s.log| ==> next.log[p] == s.log[p];
      }
      RowRunKeeps(next, us[1..]);
      var t := RowRun(s, us);
      assert us[0] in us && forall u :: u in us[1..] ==> u in us;
      assert |next.log| > |s.log| ==> t.log[|s.log|] == next.log[|s.log|];
    }
  }

  /** Over every run of row updates each version has at most one winner among the conditional ones. */
  lemma OneWinnerPerVersion(s: Store, us: seq<Update>, p: nat, q: nat)
    requires s.binding.PgRow? && Chained(s.binding, s.log)
    requires p < |RowRun(s, us).log| && q < |RowRun(s, us).log|
    requires RowRun(s, us).log[p].under.Some? && RowRun(s, us).log[p].under == RowRun(s, us).log[q].under
    ensures p == q && RowRun(s, us).log[p].under == Some(RowVersion(p))
  {
    RowRunKeeps(s, us);
  }

  /** Over every run of row updates since the token was current: the re-read converges exactly if one update landed
      and it carries the intended bytes, and never if no update carries them. */
  lemma ConvergenceOverRuns(s: Store, us: seq<Update>, intended: Bytes)
    requires s.binding.PgRow? && Chained(s.binding, s.log)
    ensures var t := RowRun(s, us); var verdict := Reconcile(t, Current(s), Sha256(intended)).verdict;
      && (verdict == Converge <==> t.present && |t.log| == |s.log| + 1 && t.log[|s.log|].bytes == intended)
      && ((forall u :: u in us ==> u.bytes != intended) ==> verdict != Converge)
  {
    RowRunKeeps(s, us);
    RowConvergence(s, RowRun(s, us), intended);
  }
}
