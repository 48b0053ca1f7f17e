/**
 * Ordered insertion, used to model how the database evaluates
 * `ORDER BY created_at` for the `find_all` queries of both tables.
 */
module Listing {

  /** `s` is in non-decreasing order of `key`. */
  ghost predicate SortedBy<T>(s: seq<T>, key: T -> int)
  {
    forall i, j :: 0 <= i < j < |s| ==> key(s[i]) <= key(s[j])
  }

  /** Number of leading elements of `s` whose key does not exceed `key(x)`. */
  function InsertionPoint<T>(s: seq<T>, x: T, key: T -> int): (k: nat)
    ensures k <= |s|
    ensures forall i :: 0 <= i < k ==> key(s[i]) <= key(x)
    ensures k < |s| ==> key(x) < key(s[k])
  {
    if |s| == 0 || key(x) < key(s[0]) then 0 else 1 + InsertionPoint(s[1..], x, key)
  }

  /** Inserts `x` into the sorted `s` after every element with a key not above its own. */
  function InsertBy<T>(s: seq<T>, x: T, key: T -> int): (r: seq<T>)
    requires SortedBy(s, key)
    ensures SortedBy(r, key)
    ensures |r| == |s| + 1
    ensures exists k :: 0 <= k <= |s| && r == s[..k] + [x] + s[k..]
  {
    var k := InsertionPoint(s, x, key);
    var r := s[..k] + [x] + s[k..];
    assert forall i :: 0 <= i < |r| ==> r[i] == if i < k then s[i] else if i == k then x else s[i - 1];
    r
  }

  /**
   * `us` holds, in `order`, exactly one item per key in `done`, each the
   * stored row of that key (as seen through `rowOf`). With `done ==
   * rows.Keys` this is the result of `SELECT ... ORDER BY`.
   */
  ghost predicate ListsRows<K, V, T>(us: seq<T>, rows: map<K, V>, done: set<K>,
                                     idOf: T -> K, rowOf: T -> V, order: T -> int)
  {
    && done <= rows.Keys
    && |us| == |done|
    && StoredRows(us, rows, done, idOf, rowOf)
    && DistinctIds(us, idOf)
    && Covers(us, done, idOf)
    && SortedBy(us, order)
  }

  /** Every item of `us` is the stored row of a key in `done`. */
  ghost predicate StoredRows<K, V, T>(us: seq<T>, rows: map<K, V>, done: set<K>, idOf: T -> K, rowOf: T -> V)
  {
    forall i :: 0 <= i < |us| ==> idOf(us[i]) in done && idOf(us[i]) in rows && rows[idOf(us[i])] == rowOf(us[i])
  }

  /** No key is listed twice. */
  ghost predicate DistinctIds<K, T>(us: seq<T>, idOf: T -> K)
  {
    forall i, j :: 0 <= i < j < |us| ==> idOf(us[i]) != idOf(us[j])
  }

  /** Every key of `done` is listed. */
  ghost predicate Covers<K, T>(us: seq<T>, done: set<K>, idOf: T -> K)
  {
    forall k :: k in done ==> exists i :: 0 <= i < |us| && idOf(us[i]) == k
  }

  /** `r` is `us` with `x` inserted at position `p`. */
  ghost predicate InsertedAt<T>(us: seq<T>, x: T, p: nat, r: seq<T>)
  {
    && p <= |us| && |r| == |us| + 1 && r[p] == x
    && (forall i :: 0 <= i < p ==> r[i] == us[i])
    && (forall i :: p <= i < |us| ==> r[i + 1] == us[i])
  }

  /** Inserting the row of a key not yet listed extends the listing by that key. */
  lemma ListsRowsInsert<K, V, T>(us: seq<T>, rows: map<K, V>, done: set<K>,
                                 idOf: T -> K, rowOf: T -> V, order: T -> int, x: T)
    requires ListsRows(us, rows, done, idOf, rowOf, order)
    requires idOf(x) in rows && idOf(x) !in done && rows[idOf(x)] == rowOf(x)
    ensures ListsRows(InsertBy(us, x, order), rows, done + {idOf(x)}, idOf, rowOf, order)
  {
    var r := InsertBy(us, x, order);
    var p := InsertionPoint(us, x, order);
    var done' := done + {idOf(x)};
    SpliceIsInsertion(us, x, p);
    assert InsertedAt(us, x, p, r);
    AddOneKey(done, idOf(x));
    assert done' <= rows.Keys && |r| == |done'|;
    InsertKeepsRows(us, rows, done, idOf, rowOf, x, p, r);
    InsertKeepsDistinct(us, done, idOf, x, p, r);
    InsertKeepsCover(us, done, idOf, x, p, r);
  }

  lemma AddOneKey<K>(done: set<K>, k: K)
    requires k !in done
    ensures |done + {k}| == |done| + 1
  {
  }

  lemma SpliceIsInsertion<T>(us: seq<T>, x: T, p: nat)
    requires p <= |us|
    ensures InsertedAt(us, x, p, us[..p] + [x] + us[p..])
  {
  }

  lemma InsertKeepsRows<K, V, T>(us: seq<T>, rows: map<K, V>, done: set<K>,
                                 idOf: T -> K, rowOf: T -> V, x: T, p: nat, r: seq<T>)
    requires StoredRows(us, rows, done, idOf, rowOf)
    requires idOf(x) in rows && rows[idOf(x)] == rowOf(x)
    requires InsertedAt(us, x, p, r)
    ensures StoredRows(r, rows, done + {idOf(x)}, idOf, rowOf)
  {
    forall i | 0 <= i < |r|
      ensures idOf(r[i]) in done + {idOf(x)} && idOf(r[i]) in rows && rows[idOf(r[i])] == rowOf(r[i])
    {
      if i > p {
        assert r[(i - 1) + 1] == us[i - 1];
      }
    }
  }

  lemma InsertKeepsDistinct<K, T>(us: seq<T>, done: set<K>, idOf: T -> K, x: T, p: nat, r: seq<T>)
    requires forall i :: 0 <= i < |us| ==> idOf(us[i]) in done
    requires DistinctIds(us, idOf)
    requires idOf(x) !in done
    requires InsertedAt(us, x, p, r)
    ensures DistinctIds(r, idOf)
  {
    forall i, j | 0 <= i < j < |r|
      ensures idOf(r[i]) != idOf(r[j])
    {
      var i' := if i < p then i else i - 1;
      var j' := if j < p then j else j - 1;
      if i != p && j != p {
        assert r[i] == us[i'] by {
          if i > p { assert r[(i - 1) + 1] == us[i - 1]; }
        }
        assert r[j] == us[j'] by {
          if j > p { assert r[(j - 1) + 1] == us[j - 1]; }
        }
      } else if i == p {
        assert r[j] == us[j - 1] by { assert r[(j - 1) + 1] == us[j - 1]; }
      }
    }
  }

  lemma InsertKeepsCover<K, T>(us: seq<T>, done: set<K>, idOf: T -> K, x: T, p: nat, r: seq<T>)
    requires Covers(us, done, idOf)
    requires InsertedAt(us, x, p, r)
    ensures Covers(r, done + {idOf(x)}, idOf)
  {
    forall k | k in done + {idOf(x)}
      ensures exists i :: 0 <= i < |r| && idOf(r[i]) == k
    {
      if k == idOf(x) {
        assert idOf(r[p]) == k;
      } else {
        var i :| 0 <= i < |us| && idOf(us[i]) == k;
        if i < p {
          assert idOf(r[i]) == k;
        } else {
          assert idOf(r[i + 1]) == k;
        }
      }
    }
  }
}
