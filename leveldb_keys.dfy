/**
 * Keys of the sync file system's LevelDB database and their order.
 *
 * LevelDB and `std::map<std::string, ...>` both order keys byte-wise
 * (`leveldb::Slice::compare`, `std::string::compare`); `Less` is that order.
 * The module also provides the two positioning primitives the merged
 * iterator relies on: sorting a key set (the order in which both underlying
 * iterators walk their keys) and `LowerBound` (`Seek` / `lower_bound`).
 */
module LevelDbKeys {

  type Key = string

  /** Byte-wise lexicographic "strictly less than". */
  predicate Less(a: Key, b: Key)
    decreases |a|
  {
    if |a| == 0 then |b| > 0
    else if |b| == 0 then false
    else a[0] < b[0] || (a[0] == b[0] && Less(a[1..], b[1..]))
  }

  /** The three-way result of `compare`: negative, zero or positive. */
  function Compare(a: Key, b: Key): (r: int)
    ensures r < 0 <==> Less(a, b)
    ensures r == 0 <==> a == b
    ensures r > 0 <==> Less(b, a)
  {
    LessIrreflexive(a);
    LessTotal(a, b);
    LessAsymmetric(a, b);
    if Less(a, b) then -1 else if a == b then 0 else 1
  }

  lemma {:induction false} LessIrreflexive(a: Key)
    ensures !Less(a, a)
    decreases |a|
  {
    if |a| > 0 {
      LessIrreflexive(a[1..]);
    }
  }

  lemma {:induction false} LessAsymmetric(a: Key, b: Key)
    ensures !(Less(a, b) && Less(b, a))
    decreases |a|
  {
    if |a| > 0 && |b| > 0 {
      LessAsymmetric(a[1..], b[1..]);
    }
  }

  lemma {:induction false} LessTransitive(a: Key, b: Key, c: Key)
    requires Less(a, b) && Less(b, c)
    ensures Less(a, c)
    decreases |a|
  {
    if |a| > 0 && a[0] == b[0] && b[0] == c[0] {
      LessTransitive(a[1..], b[1..], c[1..]);
    }
  }

  lemma {:induction false} LessTotal(a: Key, b: Key)
    ensures a == b || Less(a, b) || Less(b, a)
    decreases |a|
  {
    if |a| > 0 && |b| > 0 && a[0] == b[0] {
      LessTotal(a[1..], b[1..]);
      if a[1..] == b[1..] {
        assert a == [a[0]] + a[1..] && b == [b[0]] + b[1..];
      }
    }
  }

  /** Every later element is strictly greater: the order both iterators walk in. */
  ghost predicate StrictlySorted(s: seq<Key>) {
    forall i, j {:trigger Less(s[i], s[j])} :: 0 <= i < j < |s| ==> Less(s[i], s[j])
  }

  /**
   * The index `Seek(target)` / `lower_bound(target)` moves to: the first
   * position whose key is not below `target`.
   */
  function LowerBound(s: seq<Key>, target: Key): (i: nat)
    ensures i <= |s|
    ensures forall j :: 0 <= j < i ==> Less(s[j], target)
    ensures i < |s| ==> !Less(s[i], target)
  {
    if s == [] || !Less(s[0], target) then 0
    else 1 + LowerBound(s[1..], target)
  }

  /** In a sorted sequence, the keys from `LowerBound` on are exactly those not below the target. */
  lemma LowerBoundSplits(s: seq<Key>, target: Key, j: nat)
    requires StrictlySorted(s) && j < |s|
    ensures Less(s[j], target) <==> j < LowerBound(s, target)
  {
    var i := LowerBound(s, target);
    if i <= j < |s| && Less(s[j], target) {
      if i < j {
        LessTransitive(s[i], s[j], target);
      }
    }
  }

  /** Inserts `x` into a sorted sequence that does not hold it. */
  method InsertSorted(s: seq<Key>, x: Key) returns (r: seq<Key>)
    requires StrictlySorted(s) && x !in s
    ensures StrictlySorted(r)
    ensures forall k :: k in r <==> k in s || k == x
  {
    var j := 0;
    while j < |s| && Less(s[j], x)
      invariant 0 <= j <= |s|
      invariant forall i :: 0 <= i < j ==> Less(s[i], x)
    {
      j := j + 1;
    }
    r := s[..j] + [x] + s[j..];
    forall a, b | 0 <= a < b < |r|
      ensures Less(r[a], r[b])
    {
      if a < j && b == j {
      } else if a == j && b > j {
        LessTotal(x, s[j]);
        assert s[j] != x;
        if b - 1 > j {
          LessTransitive(x, s[j], s[b - 1]);
        }
      } else if a < j && b > j {
        LessTotal(x, s[j]);
        assert s[j] != x;
        LessTransitive(s[a], x, s[j]);
        if b - 1 > j {
          LessTransitive(s[a], s[j], s[b - 1]);
        }
      }
    }
    assert forall k :: k in r <==> k in s[..j] || k == x || k in s[j..];
    assert s == s[..j] + s[j..];
  }

  /** The keys of a set in ascending order, as an ordered container iterates them. */
  method SortedKeys(keys: set<Key>) returns (s: seq<Key>)
    ensures StrictlySorted(s)
    ensures forall k :: k in s <==> k in keys
  {
    s := [];
    var rest := keys;
    while rest != {}
      invariant StrictlySorted(s)
      invariant forall k :: k in s <==> k in keys && k !in rest
      invariant rest <= keys
      decreases |rest|
    {
      var x :| x in rest;
      s := InsertSorted(s, x);
      rest := rest - {x};
    }
  }
}
