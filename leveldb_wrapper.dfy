/**
 * The LevelDB write buffer of the sync file system's Drive backend.
 *
 * `Wrapper` overlays a map of pending PUT/DELETE operations on a LevelDB
 * database: reads see the pending operations first, `Commit` writes them
 * as one batch and forgets them only when the write succeeds.  `Iterator`
 * walks the union of the database keys and the pending keys in ascending
 * order, skipping keys whose pending operation is a DELETE.
 *
 * The database is its contents, a map; whether its `Write` succeeds is a
 * parameter of `Commit`.
 */
module LevelDbWrapper {
  import opened LevelDbKeys

  type Value = string

  datatype Operation = PutOperation | DeleteOperation

  /** A pending operation: the operation and, for a PUT, the value to store. */
  datatype Transaction = Transaction(op: Operation, value: Value)

  /** The leveldb::Status kinds that pass through the wrapper. */
  datatype Status = Ok | NotFound | Corruption | IoError

  /** What a reader sees: the database contents with the pending operations applied. */
  ghost function Overlay(store: map<Key, Value>, pending: map<Key, Transaction>): map<Key, Value>
  {
    map k | k in store.Keys + pending.Keys && !(k in pending && pending[k].op == DeleteOperation)
      :: if k in pending then pending[k].value else store[k]
  }

  // ---------------------------------------------------------------------
  // Write batches
  // ---------------------------------------------------------------------

  /** One record of a leveldb::WriteBatch. */
  datatype BatchRecord = BatchPut(key: Key, value: Value) | BatchDelete(key: Key)

  function ApplyRecord(store: map<Key, Value>, r: BatchRecord): map<Key, Value>
  {
    match r
    case BatchPut(k, v) => store[k := v]
    case BatchDelete(k) => store - {k}
  }

  /** The database after writing `batch`, records applied first to last. */
  function ApplyBatch(store: map<Key, Value>, batch: seq<BatchRecord>): map<Key, Value>
  {
    if batch == [] then store
    else ApplyRecord(ApplyBatch(store, batch[..|batch| - 1]), batch[|batch| - 1])
  }

  /** The batch record `Commit` emits for one pending entry. */
  function RecordFor(key: Key, t: Transaction): BatchRecord
  {
    match t.op
    case PutOperation => BatchPut(key, t.value)
    case DeleteOperation => BatchDelete(key)
  }

  /** The records for the pending entries of `keys`, in that order. */
  function BatchOf(pending: map<Key, Transaction>, keys: seq<Key>): seq<BatchRecord>
    requires forall k :: k in keys ==> k in pending
  {
    if keys == [] then []
    else BatchOf(pending, keys[..|keys| - 1]) + [RecordFor(keys[|keys| - 1], pending[keys[|keys| - 1]])]
  }

  /** The pending entries whose keys occur in `keys`. */
  ghost function Restrict(pending: map<Key, Transaction>, keys: seq<Key>): map<Key, Transaction>
  {
    map k | k in pending && k in keys :: pending[k]
  }

  /** A pending PUT shows its value on top of whatever was visible. */
  lemma OverlayPut(store: map<Key, Value>, pending: map<Key, Transaction>, k: Key, v: Value)
    ensures Overlay(store, pending[k := Transaction(PutOperation, v)]) == Overlay(store, pending)[k := v]
  {
    var lhs := Overlay(store, pending[k := Transaction(PutOperation, v)]);
    var rhs := Overlay(store, pending)[k := v];
    assert forall x :: x in lhs <==> x in rhs;
  }

  /** A pending DELETE hides its key, whatever was visible. */
  lemma OverlayDelete(store: map<Key, Value>, pending: map<Key, Transaction>, k: Key, v: Value)
    ensures Overlay(store, pending[k := Transaction(DeleteOperation, v)]) == Overlay(store, pending) - {k}
  {
    var lhs := Overlay(store, pending[k := Transaction(DeleteOperation, v)]);
    var rhs := Overlay(store, pending) - {k};
    assert forall x :: x in lhs <==> x in rhs;
  }

  lemma OverlayStep(store: map<Key, Value>, pending: map<Key, Transaction>, done: seq<Key>, k: Key)
    requires k in pending
    ensures Overlay(store, Restrict(pending, done + [k]))
         == ApplyRecord(Overlay(store, Restrict(pending, done)), RecordFor(k, pending[k]))
  {
    var before := Restrict(pending, done);
    assert Restrict(pending, done + [k]) == before[k := pending[k]] by {
      assert forall x :: x in done + [k] <==> x in done || x == k;
    }
    var t := pending[k];
    if t.op == PutOperation {
      OverlayPut(store, before, k, t.value);
    } else {
      OverlayDelete(store, before, k, t.value);
    }
  }

  /**
   * Writing the batch built from the pending entries of `keys` leaves the
   * database equal to the overlay of those entries, whatever their order.
   */
  lemma {:induction false} BatchAppliesPending(store: map<Key, Value>, pending: map<Key, Transaction>, keys: seq<Key>)
    requires forall k :: k in keys ==> k in pending
    ensures ApplyBatch(store, BatchOf(pending, keys)) == Overlay(store, Restrict(pending, keys))
  {
    if keys == [] {
      assert Restrict(pending, keys) == map[];
      assert Overlay(store, map[]) == store;
    } else {
      var init := keys[..|keys| - 1];
      var last := keys[|keys| - 1];
      assert keys == init + [last];
      BatchAppliesPending(store, pending, init);
      var b := BatchOf(pending, keys);
      assert b[..|b| - 1] == BatchOf(pending, init);
      OverlayStep(store, pending, init, last);
    }
  }

  lemma BatchOfExtends(pending: map<Key, Transaction>, keys: seq<Key>, i: nat)
    requires forall k :: k in keys ==> k in pending
    requires i < |keys|
    ensures BatchOf(pending, keys[..i + 1]) == BatchOf(pending, keys[..i]) + [RecordFor(keys[i], pending[keys[i]])]
  {
    assert keys[..i + 1][..i] == keys[..i];
  }

  /** The batch `Commit` builds from every pending key turns the database into what readers saw. */
  lemma BatchIsOverlay(store: map<Key, Value>, pending: map<Key, Transaction>, keys: seq<Key>)
    requires forall k :: k in keys <==> k in pending
    ensures ApplyBatch(store, BatchOf(pending, keys[..|keys|])) == Overlay(store, pending)
  {
    assert keys[..|keys|] == keys;
    BatchAppliesPending(store, pending, keys);
    assert Restrict(pending, keys) == pending;
  }

  lemma OverlayOfNothing(store: map<Key, Value>)
    ensures Overlay(store, map[]) == store
  {
  }

  // ---------------------------------------------------------------------
  // The wrapper
  // ---------------------------------------------------------------------

  class Wrapper {
    /** The contents of the underlying LevelDB database. */
    var db: map<Key, Value>
    /** `pending_`: the operations not yet committed, one per key. */
    var pending: map<Key, Transaction>

    constructor (contents: map<Key, Value>)
      ensures db == contents && pending == map[]
    {
      db := contents;
      pending := map[];
    }

    ghost function View(): map<Key, Value>
      reads this
    {
      Overlay(db, pending)
    }

    /** Records a PUT, replacing any earlier pending operation on `key`. */
    method Put(key: Key, value: Value)
      modifies this
      ensures pending == old(pending)[key := Transaction(PutOperation, value)]
      ensures db == old(db)
      ensures View() == old(View())[key := value]
    {
      OverlayPut(db, pending, key, value);
      pending := pending[key := Transaction(PutOperation, value)];
    }

    /** Records a DELETE, replacing any earlier pending operation on `key`. */
    method Delete(key: Key)
      modifies this
      ensures pending == old(pending)[key := Transaction(DeleteOperation, "")]
      ensures db == old(db)
      ensures View() == old(View()) - {key}
    {
      OverlayDelete(db, pending, key, "");
      pending := pending[key := Transaction(DeleteOperation, "")];
    }

    /** The database's own `Get`. */
    method DbGet(key: Key) returns (status: Status, value: Value)
      ensures status == Ok || status == NotFound
      ensures status == Ok <==> key in db
      ensures status == Ok ==> value == db[key]
    {
      if key in db {
        status, value := Ok, db[key];
      } else {
        status, value := NotFound, "";
      }
    }

    /**
     * Looks `key` up: a pending PUT answers with its value, a pending
     * DELETE answers NotFound, and otherwise the database answers.
     */
    method Get(key: Key) returns (status: Status, value: Value)
      ensures key in pending && pending[key].op == PutOperation ==> status == Ok && value == pending[key].value
      ensures key in pending && pending[key].op == DeleteOperation ==> status == NotFound
      ensures key !in pending ==> (status == Ok <==> key in db) && (key in db ==> value == db[key])
      ensures status == Ok <==> key in View()
      ensures status == Ok ==> value == View()[key]
    {
      if key !in pending {
        status, value := DbGet(key);
        return;
      }
      var transaction := pending[key];
      match transaction.op {
        case PutOperation =>
          status, value := Ok, transaction.value;
        case DeleteOperation =>
          status, value := NotFound, "";
      }
    }

    /** The database's atomic `Write` of a batch; `outcome` is what the database reports. */
    method Write(batch: seq<BatchRecord>, outcome: Status) returns (status: Status)
      modifies this`db
      ensures status == outcome
      ensures db == if outcome == Ok then ApplyBatch(old(db), batch) else old(db)
    {
      status := outcome;
      if outcome == Ok {
        db := ApplyBatch(db, batch);
      }
    }

    /**
     * Writes all pending operations as one batch.  On success the database
     * holds what readers saw and nothing is pending; on failure nothing changes.
     */
    method Commit(writeOutcome: Status) returns (status: Status)
      modifies this
      ensures status == writeOutcome
      ensures status == Ok ==> db == Overlay(old(db), old(pending)) && pending == map[]
      ensures status != Ok ==> db == old(db) && pending == old(pending)
      ensures View() == old(View())
    {
      var keys := SortedKeys(pending.Keys);
      var ops := pending;
      assert forall k :: k in keys <==> k in ops;
      var batch := [];
      for i := 0 to |keys|
        invariant db == old(db) && pending == ops
        invariant batch == BatchOf(ops, keys[..i])
      {
        BatchOfExtends(ops, keys, i);
        batch := batch + [RecordFor(keys[i], ops[keys[i]])];
      }
      BatchIsOverlay(db, ops, keys);
      status := Write(batch, writeOutcome);
      if status == Ok {
        Clear();
        OverlayOfNothing(db);
      }
    }

    /** Forgets every pending operation; the database is untouched. */
    method Clear()
      modifies this`pending
      ensures pending == map[]
    {
      pending := map[];
    }
  }


  // ---------------------------------------------------------------------
  // The merged iterator
  // ---------------------------------------------------------------------

  /** `k` is a key of the sorted list `s` at or after cursor `pos`. */
  ghost predicate AheadIn(s: seq<Key>, pos: nat, k: Key)
  {
    k in s && pos < |s| && !Less(k, s[pos])
  }

  lemma AheadInStart(s: seq<Key>, k: Key)
    requires StrictlySorted(s)
    ensures AheadIn(s, 0, k) <==> k in s
  {
    if k in s {
      var j :| 0 <= j < |s| && s[j] == k;
      if j > 0 {
        LessAsymmetric(s[0], s[j]);
      } else {
        LessIrreflexive(k);
      }
    }
  }

  lemma AheadInStep(s: seq<Key>, pos: nat, k: Key)
    requires StrictlySorted(s) && pos < |s|
    ensures AheadIn(s, pos + 1, k) <==> AheadIn(s, pos, k) && k != s[pos]
  {
    if k in s {
      var j :| 0 <= j < |s| && s[j] == k;
      LessIrreflexive(k);
      if j > pos {
        LessAsymmetric(s[pos], s[j]);
        if j > pos + 1 {
          LessAsymmetric(s[pos + 1], s[j]);
        }
      } else if pos + 1 < |s| {
        if j < pos {
          LessAsymmetric(s[j], s[pos]);
        }
      }
    }
  }

  lemma AheadInLowerBound(s: seq<Key>, target: Key, k: Key)
    requires StrictlySorted(s)
    ensures AheadIn(s, LowerBound(s, target), k) <==> k in s && !Less(k, target)
  {
    var i := LowerBound(s, target);
    if k in s {
      var j :| 0 <= j < |s| && s[j] == k;
      LowerBoundSplits(s, target, j);
      if i < |s| {
        if j < i {
          LessAsymmetric(s[j], s[i]);
        } else if j > i {
          LessAsymmetric(s[i], s[j]);
        } else {
          LessIrreflexive(k);
        }
      }
    }
  }

  /** A key of `s` that is not ahead of `pos` is at most the key just before `pos`. */
  lemma PassedIsBelow(s: seq<Key>, pos: nat, k: Key)
    requires StrictlySorted(s) && pos <= |s| && k in s && !AheadIn(s, pos, k)
    ensures 0 < pos && !Less(s[pos - 1], k)
  {
    var j :| 0 <= j < |s| && s[j] == k;
    if j >= pos {
      if j > pos {
        LessAsymmetric(s[pos], s[j]);
      } else {
        LessIrreflexive(k);
      }
      assert false;
    }
    if j < pos - 1 {
      LessAsymmetric(s[j], s[pos - 1]);
    } else {
      LessIrreflexive(k);
    }
  }

  /** `k <= a < b` gives `k < b`. */
  lemma AtMostThenLess(k: Key, a: Key, b: Key)
    requires !Less(a, k) && Less(a, b)
    ensures Less(k, b)
  {
    LessTotal(k, a);
    if k != a {
      LessTransitive(k, a, b);
    }
  }

  /** Being at least `c` and different from it is being above it. */
  lemma AboveIsAtLeastAndDifferent(k: Key, c: Key)
    ensures (!Less(k, c) && k != c) <==> Less(c, k)
  {
    LessTotal(k, c);
    LessAsymmetric(k, c);
    LessIrreflexive(k);
  }

  class Iterator {
    /** The database contents the LevelDB iterator reads. */
    const store: map<Key, Value>
    /** The pending operations of the wrapper the iterator was created on. */
    const pending: map<Key, Transaction>
    /** The database keys in the order `db_iterator_` walks them. */
    const storeKeys: seq<Key>
    /** The pending keys in the order `map_iterator_` walks them. */
    const pendingKeys: seq<Key>
    /** `db_iterator_`: valid while below |storeKeys|. */
    var storePos: nat
    /** `map_iterator_`: equal to |pendingKeys| at `pending_.end()`. */
    var pendingPos: nat

    ghost function View(): map<Key, Value>
    {
      Overlay(store, pending)
    }

    /** The two key lists are the sorted key sets of the two snapshots. */
    ghost predicate Listed()
    {
      && StrictlySorted(storeKeys) && (forall k :: k in storeKeys <==> k in store)
      && StrictlySorted(pendingKeys) && (forall k :: k in pendingKeys <==> k in pending)
    }

    /** Cursors `sp` and `pp` are in range and neither has passed a key the other still points at. */
    ghost predicate PositionedAt(sp: nat, pp: nat)
    {
      && sp <= |storeKeys| && pp <= |pendingKeys|
      && (0 < sp && pp < |pendingKeys| ==> Less(storeKeys[sp - 1], pendingKeys[pp]))
      && (0 < pp && sp < |storeKeys| ==> Less(pendingKeys[pp - 1], storeKeys[sp]))
    }

    /**
     * The state `AdvanceIterators` establishes: the pending cursor is at the
     * end, or the store key is below the pending key, or the pending
     * cursor rests on a PUT.
     */
    ghost predicate RestingAt(sp: nat, pp: nat)
      requires Listed() && PositionedAt(sp, pp)
    {
      || pp == |pendingKeys|
      || (sp < |storeKeys| && Less(storeKeys[sp], pendingKeys[pp]))
      || pending[pendingKeys[pp]].op == PutOperation
    }

    /** `k` is still to be visited by one of the two cursors. */
    ghost predicate AheadAt(sp: nat, pp: nat, k: Key)
    {
      AheadIn(storeKeys, sp, k) || AheadIn(pendingKeys, pp, k)
    }

    /** The visible keys ahead of cursors `sp`, `pp` are those ahead of `sp0`, `pp0`. */
    ghost predicate SameVisibleAhead(sp: nat, pp: nat, sp0: nat, pp0: nat)
    {
      forall k :: k in View() ==> (AheadAt(sp, pp, k) <==> AheadAt(sp0, pp0, k))
    }

    /** The visible keys ahead of cursors `sp`, `pp` are exactly those not below `target`. */
    ghost predicate AheadAtLeast(sp: nat, pp: nat, target: Key)
    {
      forall k :: k in View() ==> (AheadAt(sp, pp, k) <==> !Less(k, target))
    }

    /** The visible keys ahead of cursors `sp`, `pp` are exactly those above `current`. */
    ghost predicate AheadAbove(sp: nat, pp: nat, current: Key)
    {
      forall k :: k in View() ==> (AheadAt(sp, pp, k) <==> Less(current, k))
    }

    ghost predicate WellFormed()
      reads this
    {
      Listed() && PositionedAt(storePos, pendingPos) && RestingAt(storePos, pendingPos)
    }

    ghost predicate Ahead(k: Key)
      reads this
    {
      AheadAt(storePos, pendingPos, k)
    }

    constructor (w: Wrapper)
      ensures store == w.db && pending == w.pending
      ensures WellFormed() && !Valid()
    {
      store := w.db;
      pending := w.pending;
      var sk := SortedKeys(w.db.Keys);
      var pk := SortedKeys(w.pending.Keys);
      storeKeys, pendingKeys := sk, pk;
      storePos, pendingPos := |sk|, |pk|;
    }

    /** `Valid()`: valid exactly while some key readers see is still ahead of the cursors. */
    function Valid(): (r: bool)
      reads this
      ensures WellFormed() ==> (r <==> exists k :: k in View() && Ahead(k))
    {
      UnfinishedIffAhead();
      pendingPos < |pendingKeys| || storePos < |storeKeys|
    }

    /** A cursor short of its end is the same as a visible key still ahead. */
    lemma UnfinishedIffAhead()
      ensures WellFormed() ==>
                ((pendingPos < |pendingKeys| || storePos < |storeKeys|) <==> exists k :: k in View() && Ahead(k))
    {
      if WellFormed() && (pendingPos < |pendingKeys| || storePos < |storeKeys|) {
        KeyAtVisible(storePos, pendingPos);
        var k := KeyAt(storePos, pendingPos);
        assert k in View() && Ahead(k);
      }
    }

    /** The key under cursors `sp`, `pp`: the smaller of the two cursor keys. */
    function KeyAt(sp: nat, pp: nat): Key
      requires sp <= |storeKeys| && pp <= |pendingKeys| && (sp < |storeKeys| || pp < |pendingKeys|)
    {
      if sp == |storeKeys| then pendingKeys[pp]
      else if pp == |pendingKeys| then storeKeys[sp]
      else if Less(storeKeys[sp], pendingKeys[pp]) then storeKeys[sp]
      else pendingKeys[pp]
    }

    /** `key()`: a key readers see, still ahead of the cursors. */
    function Key(): (k: Key)
      reads this
      requires WellFormed() && Valid()
      ensures k in View()
      ensures Ahead(k)
    {
      KeyAtVisible(storePos, pendingPos);
      KeyAt(storePos, pendingPos)
    }

    /** `value()`: what readers see for `Key()`. */
    function Value(): (v: Value)
      reads this
      requires WellFormed() && Valid()
      ensures v == View()[Key()]
    {
      if storePos == |storeKeys| then pending[pendingKeys[pendingPos]].value
      else if pendingPos == |pendingKeys| then
        NotPending(storePos, pendingPos);
        store[storeKeys[storePos]]
      else if Less(storeKeys[storePos], pendingKeys[pendingPos]) then
        NotPending(storePos, pendingPos);
        store[storeKeys[storePos]]
      else pending[pendingKeys[pendingPos]].value
    }

    /** A store key below the pending cursor's key (or with that cursor at the end) has no pending entry. */
    lemma NotPending(sp: nat, pp: nat)
      requires Listed() && PositionedAt(sp, pp) && sp < |storeKeys|
      requires pp == |pendingKeys| || Less(storeKeys[sp], pendingKeys[pp])
      ensures storeKeys[sp] !in pending
    {
      var k := storeKeys[sp];
      if k in pending && !AheadIn(pendingKeys, pp, k) {
        PassedIsBelow(pendingKeys, pp, k);
      }
    }

    /** At a resting position the key under the cursors is visible and still ahead. */
    lemma KeyAtVisible(sp: nat, pp: nat)
      requires Listed() && PositionedAt(sp, pp) && RestingAt(sp, pp)
      requires sp < |storeKeys| || pp < |pendingKeys|
      ensures KeyAt(sp, pp) in View() && AheadAt(sp, pp, KeyAt(sp, pp))
    {
      LessIrreflexive(KeyAt(sp, pp));
      if sp < |storeKeys| && (pp == |pendingKeys| || Less(storeKeys[sp], pendingKeys[pp])) {
        NotPending(sp, pp);
      }
    }

    /** Of the keys of either snapshot, those still ahead are exactly those not below the key under the cursors. */
    lemma KeyIsLeastAhead(sp: nat, pp: nat)
      requires Listed() && PositionedAt(sp, pp)
      requires sp < |storeKeys| || pp < |pendingKeys|
      ensures forall k :: k in store || k in pending ==> (AheadAt(sp, pp, k) <==> !Less(k, KeyAt(sp, pp)))
    {
      var c := KeyAt(sp, pp);
      var sk, pk := storeKeys, pendingKeys;
      forall k | k in store || k in pending
        ensures AheadAt(sp, pp, k) <==> !Less(k, c)
      {
        if AheadAt(sp, pp, k) {
          LessTotal(k, c);
          if AheadIn(sk, sp, k) && c != sk[sp] {
            if Less(k, c) {
              LessTotal(sk[sp], c);
              LessTransitive(sk[sp], k, c);
            }
          } else if AheadIn(pk, pp, k) && c != pk[pp] {
            if Less(k, c) {
              LessTransitive(k, c, pk[pp]);
            }
          }
        } else {
          if k in store {
            assert k in sk;
            PassedIsBelow(sk, sp, k);
            if sp < |sk| && c == sk[sp] {
              AtMostThenLess(k, sk[sp - 1], sk[sp]);
            } else {
              AtMostThenLess(k, sk[sp - 1], pk[pp]);
            }
          } else {
            assert k in pk;
            PassedIsBelow(pk, pp, k);
            if pp < |pk| && c == pk[pp] {
              AtMostThenLess(k, pk[pp - 1], pk[pp]);
            } else {
              AtMostThenLess(k, pk[pp - 1], sk[sp]);
            }
          }
          LessAsymmetric(k, c);
        }
      }
    }

    /**
     * `AdvanceIterators`: moves the cursors past pending DELETEs (and the
     * database keys they hide) until the position is resting; the visible
     * keys still ahead stay the same.
     */
    method AdvanceIterators()
      requires Listed() && PositionedAt(storePos, pendingPos)
      modifies this`storePos, this`pendingPos
      ensures WellFormed()
      ensures SameVisibleAhead(storePos, pendingPos, old(storePos), old(pendingPos))
    {
      ghost var sp0, pp0 := storePos, pendingPos;
      var sp: nat, pp: nat := storePos, pendingPos;
      if pp == |pendingKeys| {
        return;
      }
      while pp < |pendingKeys| && sp < |storeKeys|
        invariant PositionedAt(sp, pp)
        invariant SameVisibleAhead(sp, pp, sp0, pp0)
        decreases |pendingKeys| - pp
      {
        var cmpKey := Compare(storeKeys[sp], pendingKeys[pp]);
        if cmpKey < 0 || pending[pendingKeys[pp]].op == PutOperation {
          storePos, pendingPos := sp, pp;
          return;
        }
        SkipDeleted(sp, pp, if cmpKey == 0 then sp + 1 else sp, sp0, pp0);
        if cmpKey == 0 {
          sp := sp + 1;
        }
        pp := pp + 1;
      }
      if sp < |storeKeys| {
        storePos, pendingPos := sp, pp;
        return;
      }
      while pp < |pendingKeys| && pending[pendingKeys[pp]].op == DeleteOperation
        invariant PositionedAt(sp, pp) && sp == |storeKeys|
        invariant SameVisibleAhead(sp, pp, sp0, pp0)
        decreases |pendingKeys| - pp
      {
        SkipDeleted(sp, pp, sp, sp0, pp0);
        pp := pp + 1;
      }
      storePos, pendingPos := sp, pp;
    }

    /**
     * Stepping the pending cursor past a DELETE, and the store cursor too
     * when it points at the same key, keeps the cursors positioned and
     * changes nothing visible that is ahead.
     */
    lemma SkipDeleted(sp: nat, pp: nat, sp1: nat, sp0: nat, pp0: nat)
      requires Listed() && PositionedAt(sp, pp) && pp < |pendingKeys| && SameVisibleAhead(sp, pp, sp0, pp0)
      requires pending[pendingKeys[pp]].op == DeleteOperation
      requires sp1 == sp || sp1 == sp + 1
      requires sp1 == sp + 1 ==> sp < |storeKeys| && storeKeys[sp] == pendingKeys[pp]
      requires sp1 == sp && sp < |storeKeys| ==> Less(pendingKeys[pp], storeKeys[sp])
      ensures PositionedAt(sp1, pp + 1)
      ensures SameVisibleAhead(sp1, pp + 1, sp0, pp0)
    {
      var sk, pk := storeKeys, pendingKeys;
      if 0 < sp1 && pp + 1 < |pk| && sp1 == sp {
        LessTransitive(sk[sp - 1], pk[pp], pk[pp + 1]);
      }
      forall k | k in View()
        ensures AheadAt(sp1, pp + 1, k) <==> AheadAt(sp, pp, k)
      {
        AheadInStep(pk, pp, k);
        if sp1 == sp + 1 {
          AheadInStep(sk, sp, k);
        }
      }
    }

    /** Stepping the store cursor past a key below the pending one leaves ahead exactly the visible keys above it. */
    lemma StepStore(sp: nat, pp: nat)
      requires Listed() && PositionedAt(sp, pp) && sp < |storeKeys|
      requires pp == |pendingKeys| || Less(storeKeys[sp], pendingKeys[pp])
      ensures PositionedAt(sp + 1, pp)
      ensures AheadAbove(sp + 1, pp, KeyAt(sp, pp))
    {
      var c := storeKeys[sp];
      if 0 < pp && sp + 1 < |storeKeys| {
        LessTransitive(pendingKeys[pp - 1], c, storeKeys[sp + 1]);
      }
      KeyIsLeastAhead(sp, pp);
      forall k | k in View()
        ensures AheadAt(sp + 1, pp, k) <==> Less(c, k)
      {
        AheadInStep(storeKeys, sp, k);
        AboveIsAtLeastAndDifferent(k, c);
      }
    }

    /** Stepping the pending cursor past a key below the store one leaves ahead exactly the visible keys above it. */
    lemma StepPending(sp: nat, pp: nat)
      requires Listed() && PositionedAt(sp, pp) && pp < |pendingKeys|
      requires sp == |storeKeys| || Less(pendingKeys[pp], storeKeys[sp])
      ensures PositionedAt(sp, pp + 1)
      ensures AheadAbove(sp, pp + 1, KeyAt(sp, pp))
    {
      var c := pendingKeys[pp];
      if sp < |storeKeys| {
        LessAsymmetric(c, storeKeys[sp]);
      }
      if 0 < sp && pp + 1 < |pendingKeys| {
        LessTransitive(storeKeys[sp - 1], c, pendingKeys[pp + 1]);
      }
      KeyIsLeastAhead(sp, pp);
      forall k | k in View()
        ensures AheadAt(sp, pp + 1, k) <==> Less(c, k)
      {
        AheadInStep(pendingKeys, pp, k);
        AboveIsAtLeastAndDifferent(k, c);
      }
    }

    /** Stepping both cursors past the key they share leaves ahead exactly the visible keys above it. */
    lemma StepBoth(sp: nat, pp: nat)
      requires Listed() && PositionedAt(sp, pp) && sp < |storeKeys| && pp < |pendingKeys|
      requires storeKeys[sp] == pendingKeys[pp]
      ensures PositionedAt(sp + 1, pp + 1)
      ensures AheadAbove(sp + 1, pp + 1, KeyAt(sp, pp))
    {
      var c := storeKeys[sp];
      LessIrreflexive(c);
      KeyIsLeastAhead(sp, pp);
      forall k | k in View()
        ensures AheadAt(sp + 1, pp + 1, k) <==> Less(c, k)
      {
        AheadInStep(storeKeys, sp, k);
        AheadInStep(pendingKeys, pp, k);
        AboveIsAtLeastAndDifferent(k, c);
      }
    }

    /**
     * Once the visible keys ahead are exactly those not below `target`,
     * the iterator rests on the least of them, or is exhausted when there
     * is none.
     */
    lemma SettledAtLeast(target: Key, sp0: nat, pp0: nat)
      requires WellFormed()
      requires SameVisibleAhead(storePos, pendingPos, sp0, pp0) && AheadAtLeast(sp0, pp0, target)
      ensures Valid() ==> !Less(Key(), target)
      ensures Valid() ==> forall k :: k in View() && !Less(k, target) ==> !Less(k, Key())
      ensures !Valid() ==> forall k :: k in View() ==> Less(k, target)
    {
      if Valid() {
        KeyIsLeastAhead(storePos, pendingPos);
      }
    }

    /**
     * Once the visible keys ahead are exactly those above `current`, the
     * iterator rests on the least of them, or is exhausted when there is none.
     */
    lemma SettledAbove(current: Key, sp0: nat, pp0: nat)
      requires WellFormed()
      requires SameVisibleAhead(storePos, pendingPos, sp0, pp0) && AheadAbove(sp0, pp0, current)
      ensures Valid() ==> Less(current, Key())
      ensures Valid() ==> forall k :: k in View() && Less(current, k) ==> !Less(k, Key())
      ensures !Valid() ==> forall k :: k in View() ==> !Less(current, k)
    {
      if Valid() {
        KeyIsLeastAhead(storePos, pendingPos);
      }
    }

    /** `SeekToFirst`: rests on the least key readers see, if there is one. */
    method SeekToFirst()
      requires WellFormed()
      modifies this`storePos, this`pendingPos
      ensures WellFormed()
      ensures Valid() <==> View() != map[]
      ensures Valid() ==> forall k :: k in View() ==> !Less(k, Key())
    {
      pendingPos := 0;
      storePos := 0;
      forall k | k in View()
        ensures AheadAt(0, 0, k) <==> !Less(k, "")
      {
        AheadInStart(storeKeys, k);
        AheadInStart(pendingKeys, k);
      }
      AdvanceIterators();
      SettledAtLeast("", 0, 0);
      if Valid() {
        assert Key() in View();
      }
    }

    /** `Seek(target)`: rests on the least key readers see that is not below `target`. */
    method Seek(target: Key)
      requires WellFormed()
      modifies this`storePos, this`pendingPos
      ensures WellFormed()
      ensures Valid() ==> !Less(Key(), target)
      ensures Valid() ==> forall k :: k in View() && !Less(k, target) ==> !Less(k, Key())
      ensures !Valid() ==> forall k :: k in View() ==> Less(k, target)
    {
      pendingPos := LowerBound(pendingKeys, target);
      storePos := LowerBound(storeKeys, target);
      SeekPositions(target);
      ghost var sp0, pp0 := storePos, pendingPos;
      AdvanceIterators();
      SettledAtLeast(target, sp0, pp0);
    }

    /** The positions `Seek` starts from leave ahead exactly the keys not below the target. */
    lemma SeekPositions(target: Key)
      requires Listed()
      requires storePos == LowerBound(storeKeys, target) && pendingPos == LowerBound(pendingKeys, target)
      ensures PositionedAt(storePos, pendingPos)
      ensures AheadAtLeast(storePos, pendingPos, target)
    {
      var sk, pk, sp, pp := storeKeys, pendingKeys, storePos, pendingPos;
      if 0 < sp && pp < |pk| {
        LessTotal(pk[pp], target);
        if pk[pp] != target {
          LessTransitive(sk[sp - 1], target, pk[pp]);
        }
      }
      if 0 < pp && sp < |sk| {
        LessTotal(sk[sp], target);
        if sk[sp] != target {
          LessTransitive(pk[pp - 1], target, sk[sp]);
        }
      }
      forall k | k in View()
        ensures AheadAt(sp, pp, k) <==> !Less(k, target)
      {
        AheadInLowerBound(sk, target, k);
        AheadInLowerBound(pk, target, k);
      }
    }

    /**
     * `Next`: moves past `Key()` to the least visible key above it.  On an
     * exhausted iterator it changes nothing.
     */
    method Next()
      requires WellFormed()
      modifies this`storePos, this`pendingPos
      ensures WellFormed()
      ensures !old(Valid()) ==> storePos == old(storePos) && pendingPos == old(pendingPos)
      ensures old(Valid()) && Valid() ==> Less(old(Key()), Key())
      ensures old(Valid()) && Valid() ==> forall k :: k in View() && Less(old(Key()), k) ==> !Less(k, Key())
      ensures old(Valid()) && !Valid() ==> forall k :: k in View() ==> !Less(old(Key()), k)
    {
      if !Valid() {
        return;
      }
      ghost var current := Key();
      if pendingPos == |pendingKeys| {
        if storePos < |storeKeys| {
          StepStore(storePos, pendingPos);
          storePos := storePos + 1;
        }
        SettledAbove(current, storePos, pendingPos);
        return;
      }
      ghost var sp, pp := storePos, pendingPos;
      if storePos < |storeKeys| {
        var comp := Compare(storeKeys[storePos], pendingKeys[pendingPos]);
        if comp <= 0 {
          storePos := storePos + 1;
        }
        if comp >= 0 {
          pendingPos := pendingPos + 1;
        }
      } else {
        pendingPos := pendingPos + 1;
      }
      StepPast(sp, pp, storePos, pendingPos);
      ghost var sp1, pp1 := storePos, pendingPos;
      AdvanceIterators();
      SettledAbove(current, sp1, pp1);
    }
    /** Stepping the cursors that point at the current key leaves ahead exactly the visible keys above it. */
    lemma StepPast(sp: nat, pp: nat, sp1: nat, pp1: nat)
      requires Listed() && PositionedAt(sp, pp) && pp < |pendingKeys|
      requires sp < |storeKeys| ==>
        && sp1 == (if !Less(pendingKeys[pp], storeKeys[sp]) then sp + 1 else sp)
        && pp1 == (if !Less(storeKeys[sp], pendingKeys[pp]) then pp + 1 else pp)
      requires sp == |storeKeys| ==> sp1 == sp && pp1 == pp + 1
      ensures PositionedAt(sp1, pp1) && AheadAbove(sp1, pp1, KeyAt(sp, pp))
    {
      if sp == |storeKeys| {
        StepPending(sp, pp);
      } else {
        LessTotal(storeKeys[sp], pendingKeys[pp]);
        LessAsymmetric(storeKeys[sp], pendingKeys[pp]);
        if Less(storeKeys[sp], pendingKeys[pp]) {
          StepStore(sp, pp);
        } else if Less(pendingKeys[pp], storeKeys[sp]) {
          StepPending(sp, pp);
        } else {
          StepBoth(sp, pp);
        }
      }
    }
  }
}
