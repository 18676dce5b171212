/** The restore write leg of the S3 binding: one conditional put, retried in place on the
    transient 409 under the same comparand. */
module ObjectPut {
  import opened Foundations
  import opened ForeignStore

  const MAX_RETRYABLE_PUT_ATTEMPTS: nat := 8

  const NULL_VERSION_ID := "null"

  /** The fine-grained outcome of a failed put; None means "not a compare-and-set state". */
  datatype PutOutcome = LostRace | Retryable | RacedDelete | Ambiguous

  function ClassifyPutException(code: Option<string>): Option<PutOutcome> {
    if code.None? then Some(Ambiguous)
    else if code.value == "PreconditionFailed" then Some(LostRace)
    else if code.value == "ConditionalRequestConflict" then Some(Retryable)
    else if code.value in ["NoSuchKey", "NoSuchVersion", "404"] then Some(RacedDelete)
    else None
  }

  datatype PutReply = PutOk(etag: Token, versionId: Option<string>) | PutError(code: Option<string>)

  datatype VersionedResult =
    | VersionedWritten(etag: Token, versionId: string)
    | PointerUnconfirmed(etag: Token)
    | CasConflict
    | CasUnknown
    | RetriesExhausted(attempts: nat)
    | Raised

  /** The one answer after which the put is sent again. */
  predicate Transient(r: PutReply) { r == PutError(Some("ConditionalRequestConflict")) }

  predicate Pointer(versionId: Option<string>) { versionId.Some? && versionId.value != "" && versionId.value != NULL_VERSION_ID }

  /** How a restore write must end, given its puts' answers: every answer but the last is the transient 409, and the last is
      not, unless it is the ninth. */
  ghost predicate EndsRightly(replies: seq<PutReply>, r: VersionedResult) {
    && 1 <= |replies| <= 9 && (forall k :: 0 <= k < |replies| - 1 ==> Transient(replies[k]))
    && match replies[|replies| - 1]
       case PutOk(etag, versionId) => r == if Pointer(versionId) then VersionedWritten(etag, versionId.value) else PointerUnconfirmed(etag)
       case PutError(None) => r == CasUnknown
       case PutError(Some(code)) =>
         if code == "ConditionalRequestConflict" then |replies| == 9 && r == RetriesExhausted(9)
         else if code == "PreconditionFailed" || code == "NoSuchKey" || code == "NoSuchVersion" || code == "404" then r == CasConflict
         else r == Raised
  }

  /** The put's condition: on a read's ETag, or on absence. */
  datatype Comparand = IfMatch(token: Token) | IfNoneMatch

  /** What S3 makes of the n-th put: carry it out, refuse it with an error code, or cut the connection, having
      carried it out or with the request still under way. */
  datatype Fate = Carry(salt: nat, versionId: Option<string>) | Refuse(code: string) | Cut(carried: bool, salt: nat)

  /** What other writers do to the object meanwhile: write, delete, re-create. */
  datatype Meanwhile = Meanwhile(entries: seq<Entry>, present: bool)

  /** Where in the history a put landed, and the token of the state it replaced; None if the object was absent. */
  datatype Landing = Landing(at: nat, replaced: Option<Token>)

  /** A put whose connection was cut before S3 had carried it out. */
  datatype Floating = Floating(comparand: Comparand, bytes: Bytes)

  function Disturbed(s: Store, m: Meanwhile): Store { s.(log := s.log + m.entries, present := m.present) }

  predicate Met(s: Store, c: Comparand) {
    match c
    case IfMatch(t) => s.present && Current(s) == t
    case IfNoneMatch => !s.present
  }

  function ConditionalPut(s: Store, c: Comparand, bytes: Bytes, salt: nat): Store {
    match c
    case IfMatch(t) => ConditionalWrite(s, t, bytes, salt)
    case IfNoneMatch => if s.present then s else s.(log := s.log + [Entry(bytes, salt, None)], present := true)
  }

  function Replacing(s: Store): Option<Token> { if s.present then Some(Current(s)) else None }

  /** The history only grows, though the object may be deleted and created again. */
  predicate Grows(s: Store, t: Store) { s.binding == t.binding && s.log <= t.log }

  /** Every landing replaced the state that the comparand names. */
  ghost predicate Replaced(store: Store, mine: seq<Landing>, c: Comparand) {
    forall k :: 0 <= k < |mine| ==> ReplacedAt(store, mine[k], c)
  }

  ghost predicate ReplacedAt(store: Store, l: Landing, c: Comparand) {
    && 0 < l.at < |store.log|
    && match c
       case IfMatch(t) => l.replaced == Some(t) && TokenAt(store.binding, store.log, l.at - 1) == t && store.log[l.at].under == Some(t)
       case IfNoneMatch => l.replaced.None?
  }

  lemma ReplacedLater(s: Store, t: Store, mine: seq<Landing>, c: Comparand)
    requires Replaced(s, mine, c) && Grows(s, t)
    ensures Replaced(t, mine, c)
  {
    forall k | 0 <= k < |mine| ensures ReplacedAt(t, mine[k], c) {
      assert ReplacedAt(s, mine[k], c);
      assert t.log[mine[k].at] == s.log[mine[k].at] && t.log[mine[k].at - 1] == s.log[mine[k].at - 1];
    }
  }

  /** A conditional put lands exactly if its condition is met, and then adds one entry on top of the state it names. */
  lemma LandsOnNamedState(s: Store, c: Comparand, bytes: Bytes, salt: nat)
    ensures Grows(s, ConditionalPut(s, c, bytes, salt))
    ensures var t := ConditionalPut(s, c, bytes, salt);
      && (t.log != s.log <==> Met(s, c)) && (!Met(s, c) ==> t == s)
      && (Met(s, c) ==> ReplacedAt(t, Landing(|t.log| - 1, Replacing(s)), c) && |t.log| == |s.log| + 1 && Latest(t) == bytes && t.present)
  {
    var t := ConditionalPut(s, c, bytes, salt);
    assert t.log != s.log ==> t.log[|s.log| - 1] == s.log[|s.log| - 1];
  }

  /** One S3 object and the puts one client sends to it; other writers act in between. */
  class S3Key {
    var store: Store
    var puts: seq<Comparand>      // the condition of each put sent
    var replies: seq<PutReply>    // and its answer
    var mine: seq<Landing>        // where this client's puts landed
    var floating: seq<Floating>   // those of unknown fate that may still land
    const fates: nat -> Fate
    const others: nat -> Meanwhile

    constructor (store: Store, fates: nat -> Fate, others: nat -> Meanwhile)
      ensures this.store == store && puts == [] && replies == [] && mine == [] && floating == []
      ensures this.fates == fates && this.others == others
    {
      this.store, this.puts, this.replies, this.mine, this.floating := store, [], [], [], [];
      this.fates, this.others := fates, others;
    }

    method PutObject(c: Comparand, bytes: Bytes) returns (r: PutReply)
      requires Replaced(store, mine, c)
      modifies this
      ensures replies == old(replies) + [r]
      ensures Grows(old(store), store)
      ensures puts == old(puts) + [c] && Replaced(store, mine, c)
      ensures mine == old(mine) || (|mine| == |old(mine)| + 1 && old(mine) <= mine && mine[|old(mine)|].at == |store.log| - 1 && Latest(store) == bytes)
      ensures r.PutOk? ==> mine != old(mine) && floating == old(floating) && r.etag == Current(store)
      ensures r == PutError(None) ==> floating == old(floating) || (mine == old(mine) && floating == old(floating) + [Floating(c, bytes)])
      ensures r.PutError? && r.code.Some? ==> mine == old(mine) && floating == old(floating)
    {
      var n := |puts|;
      puts := puts + [c];
      var now := Disturbed(store, others(n));
      ReplacedLater(store, now, mine, c);
      store := now;
      var fate := fates(n);
      if fate.Refuse? {
        r := PutError(Some(fate.code));
      } else if fate.Cut? && !fate.carried {
        floating := floating + [Floating(c, bytes)];
        r := PutError(None);
      } else {
        var landed := CarryOut(c, bytes, fate.salt);
        r := if fate.Cut? then PutError(None)
             else if landed then PutOk(Current(store), fate.versionId)
             else PutError(Some(if c.IfNoneMatch? || now.present then "PreconditionFailed" else "NoSuchKey"));
      }
      replies := replies + [r];
    }

    /** S3 carries a put out. */
    method CarryOut(c: Comparand, bytes: Bytes, salt: nat) returns (landed: bool)
      requires Replaced(store, mine, c)
      modifies this`store, this`mine
      ensures Grows(old(store), store) && Replaced(store, mine, c)
      ensures landed <==> Met(old(store), c)
      ensures landed ==> mine == old(mine) + [Landing(|store.log| - 1, Replacing(old(store)))] && Latest(store) == bytes
      ensures !landed ==> mine == old(mine) && store == old(store)
    {
      var after := ConditionalPut(store, c, bytes, salt);
      LandsOnNamedState(store, c, bytes, salt);
      ReplacedLater(store, after, mine, c);
      landed := after.log != store.log;
      if landed {
        mine := mine + [Landing(|after.log| - 1, Replacing(store))];
        store := after;
      }
    }

    /** At most nine puts, all under the caller's comparand. A win, with or without a version id, means exactly
        one of them landed, and it replaced the expected state; a conflict, an exhausted budget or a
        raised error means none landed; and after each of these none can land any more. After an ambiguous
        failure at most one did or still can. */
    method CasWriteVersioned(c: Comparand, bytes: Bytes) returns (r: VersionedResult)
      requires puts == [] && replies == [] && mine == [] && floating == []
      modifies this
      ensures |puts| == |replies| && EndsRightly(replies, r)
      ensures forall k :: 0 <= k < |puts| ==> puts[k] == c
      ensures Grows(old(store), store) && Replaced(store, mine, c)
      ensures r.VersionedWritten? || r.PointerUnconfirmed? ==>
        |mine| == 1 && store.log[mine[0].at].bytes == bytes && r.etag == TokenAt(store.binding, store.log, mine[0].at)
      ensures r.CasConflict? || r.RetriesExhausted? || r.Raised? ==> mine == []
      ensures !r.CasUnknown? ==> floating == []
      ensures r.CasUnknown? ==>
        |mine| + |floating| <= 1 && (floating == [] || floating == [Floating(c, bytes)]) && (mine == [] || store.log[mine[0].at].bytes == bytes)
    {
      var attempts := 0;
      while true
        invariant attempts == |puts| == |replies| <= MAX_RETRYABLE_PUT_ATTEMPTS
        invariant forall k :: 0 <= k < |replies| ==> Transient(replies[k])
        invariant forall k :: 0 <= k < |puts| ==> puts[k] == c
        invariant mine == [] && floating == [] && Grows(old(store), store)
        decreases MAX_RETRYABLE_PUT_ATTEMPTS - attempts
      {
        attempts := attempts + 1;
        var reply := PutObject(c, bytes);
        match reply {
          case PutError(code) =>
            var outcome := ClassifyPutException(code);
            if outcome.None? { return Raised; }
            if outcome.value.Retryable? {
              if attempts > MAX_RETRYABLE_PUT_ATTEMPTS { return RetriesExhausted(attempts); }
              continue;
            }
            return if outcome.value.Ambiguous? then CasUnknown else CasConflict;
          case PutOk(etag, versionId) =>
            return if Pointer(versionId) then VersionedWritten(etag, versionId.value) else PointerUnconfirmed(etag);
        }
      }
    }

    /** A put of unknown fate reaches S3 after its caller has returned: it lands exactly if its condition is
        met then, on the state it names, and only once. */
    method LandFloating(meanwhile: Meanwhile, salt: nat) returns (landed: bool)
      requires floating != [] && Replaced(store, mine, floating[0].comparand)
      modifies this
      ensures Grows(old(store), store) && floating == old(floating)[1..] && puts == old(puts)
      ensures landed <==> Met(Disturbed(old(store), meanwhile), old(floating)[0].comparand)
      ensures Replaced(store, mine, old(floating)[0].comparand)
      ensures landed ==> |mine| == |old(mine)| + 1 && Latest(store) == old(floating)[0].bytes && mine[|old(mine)|].at == |store.log| - 1
      ensures !landed ==> mine == old(mine)
    {
      var f := floating[0];
      floating := floating[1..];
      var now := Disturbed(store, meanwhile);
      ReplacedLater(store, now, mine, f.comparand);
      store := now;
      landed := CarryOut(f.comparand, f.bytes, salt);
    }
  }
}
