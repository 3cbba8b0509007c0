/** How the model reads a table: the rows' ids in ascending order (the order
    in which the database hands them out), a filter, and the stable ordering
    of an `ORDER BY` on a nullable column (NULLs last, as PostgreSQL sorts
    them in ascending order). */
module Listing {

  import opened Shared

  predicate Ascending(ids: seq<nat>)
  {
    forall i, j :: 0 <= i < j < |ids| ==> ids[i] < ids[j]
  }

  /** The ids of `table` below `bound`, ascending. */
  function KeysBelow<T>(table: map<nat, T>, bound: nat): (ids: seq<nat>)
    ensures Ascending(ids)
    ensures forall k :: k in ids <==> k in table && k < bound
  {
    if bound == 0 then []
    else
      var r := KeysBelow(table, bound - 1);
      if bound - 1 in table then AscendingAppend(r, bound - 1); r + [bound - 1] else r
  }

  lemma AscendingAppend(ids: seq<nat>, x: nat)
    requires Ascending(ids)
    requires forall k :: k in ids ==> k < x
    ensures Ascending(ids + [x])
  {
    forall i, j | 0 <= i < j < |ids| + 1 ensures (ids + [x])[i] < (ids + [x])[j] {
      if j == |ids| {
        assert ids[i] in ids;
      }
    }
  }

  /** The ids satisfying `keep`, in their original order. */
  function Filter(ids: seq<nat>, keep: nat -> bool): (r: seq<nat>)
    ensures forall k :: k in r <==> k in ids && keep(k)
    ensures Ascending(ids) ==> Ascending(r)
  {
    if ids == [] then []
    else
      var init := ids[..|ids| - 1];
      var last := ids[|ids| - 1];
      var r := Filter(init, keep);
      assert ids == init + [last];
      if keep(last) then
        (if Ascending(ids) then
           assert forall k :: k in init ==> k < last by {
             forall k | k in init ensures k < last {
               var m :| 0 <= m < |init| && init[m] == k;
               assert ids[m] == k;
             }
           }
           AscendingAppend(r, last);
           r + [last]
         else r + [last])
      else r
  }

  /** The order of an ascending `ORDER BY` on a nullable column: values in
      numeric order, NULLs after every value. */
  predicate KeyLe(a: Option<int>, b: Option<int>)
  {
    match (a, b)
    case (None, None) => true
    case (None, Some(_)) => false
    case (Some(_), None) => true
    case (Some(x), Some(y)) => x <= y
  }

  predicate SortedBy(ids: seq<nat>, key: nat -> Option<int>)
  {
    forall i, j :: 0 <= i < j < |ids| ==> KeyLe(key(ids[i]), key(ids[j]))
  }

  /** Puts `k` after every id whose key is not larger. */
  function InsertBy(ids: seq<nat>, key: nat -> Option<int>, k: nat): seq<nat>
  {
    if ids == [] then [k]
    else if KeyLe(key(ids[0]), key(k)) then [ids[0]] + InsertBy(ids[1..], key, k)
    else [k] + ids
  }

  /** Insertion sort by `key`, taking the ids left to right, so that ids
      with equal keys keep their order. */
  function SortBy(ids: seq<nat>, key: nat -> Option<int>): seq<nat>
  {
    if ids == [] then [] else InsertBy(SortBy(ids[..|ids| - 1], key), key, ids[|ids| - 1])
  }

  lemma KeyLeTotal(a: Option<int>, b: Option<int>)
    ensures KeyLe(a, b) || KeyLe(b, a)
  {
  }

  lemma KeyLeTransitive(a: Option<int>, b: Option<int>, c: Option<int>)
    requires KeyLe(a, b) && KeyLe(b, c)
    ensures KeyLe(a, c)
  {
  }

  lemma {:induction false} InsertByCount(ids: seq<nat>, key: nat -> Option<int>, k: nat)
    ensures multiset(InsertBy(ids, key, k)) == multiset(ids) + multiset{k}
    decreases |ids|
  {
    if ids != [] && KeyLe(key(ids[0]), key(k)) {
      InsertByCount(ids[1..], key, k);
      assert ids == [ids[0]] + ids[1..];
    }
  }

  lemma {:induction false} InsertBySorted(ids: seq<nat>, key: nat -> Option<int>, k: nat)
    requires SortedBy(ids, key)
    ensures SortedBy(InsertBy(ids, key, k), key)
    decreases |ids|
  {
    if ids == [] {
    } else if KeyLe(key(ids[0]), key(k)) {
      var rest := InsertBy(ids[1..], key, k);
      InsertBySorted(ids[1..], key, k);
      InsertByCount(ids[1..], key, k);
      forall j | 0 <= j < |rest| ensures KeyLe(key(ids[0]), key(rest[j])) {
        assert rest[j] in multiset(rest);
        if rest[j] != k {
          assert rest[j] in multiset(ids[1..]);
          assert rest[j] in ids[1..];
          var m :| 0 <= m < |ids[1..]| && ids[1..][m] == rest[j];
          assert ids[m + 1] == rest[j];
        }
      }
      var r := [ids[0]] + rest;
      forall i, j | 0 <= i < j < |r| ensures KeyLe(key(r[i]), key(r[j])) {
        if i == 0 {
          assert r[j] == rest[j - 1];
        } else {
          assert r[i] == rest[i - 1] && r[j] == rest[j - 1];
        }
      }
    } else {
      KeyLeTotal(key(ids[0]), key(k));
      var r := [k] + ids;
      forall i, j | 0 <= i < j < |r| ensures KeyLe(key(r[i]), key(r[j])) {
        if i == 0 {
          if j > 1 {
            KeyLeTransitive(key(k), key(ids[0]), key(ids[j - 1]));
          }
        } else {
          assert r[i] == ids[i - 1] && r[j] == ids[j - 1];
        }
      }
    }
  }

  /** Sorting orders the ids by key and neither drops nor repeats any. */
  lemma {:induction false} SortBySortedPermutation(ids: seq<nat>, key: nat -> Option<int>)
    ensures SortedBy(SortBy(ids, key), key)
    ensures multiset(SortBy(ids, key)) == multiset(ids)
    decreases |ids|
  {
    if ids != [] {
      var init := ids[..|ids| - 1];
      SortBySortedPermutation(init, key);
      InsertBySorted(SortBy(init, key), key, ids[|ids| - 1]);
      InsertByCount(SortBy(init, key), key, ids[|ids| - 1]);
      assert ids == init + [ids[|ids| - 1]];
    }
  }

  /** Membership survives sorting. */
  lemma SortByMembers(ids: seq<nat>, key: nat -> Option<int>)
    ensures forall k :: k in SortBy(ids, key) <==> k in ids
  {
    SortBySortedPermutation(ids, key);
    forall k ensures k in SortBy(ids, key) <==> k in ids {
      assert k in SortBy(ids, key) <==> k in multiset(SortBy(ids, key));
      assert k in ids <==> k in multiset(ids);
    }
  }

  /** A list of distinct ids sorts to a list of distinct ids. */
  lemma SortByDistinct(ids: seq<nat>, key: nat -> Option<int>)
    requires forall i, j :: 0 <= i < j < |ids| ==> ids[i] != ids[j]
    ensures var r := SortBy(ids, key);
      forall i, j :: 0 <= i < j < |r| ==> r[i] != r[j]
  {
    SortBySortedPermutation(ids, key);
    var r := SortBy(ids, key);
    forall i, j | 0 <= i < j < |r| ensures r[i] != r[j] {
      if r[i] == r[j] {
        assert multiset(r)[r[i]] >= 2 by {
          assert r == r[..i] + [r[i]] + r[i + 1..];
          assert r[j] in r[i + 1..];
          assert multiset(r) == multiset(r[..i]) + multiset{r[i]} + multiset(r[i + 1..]);
        }
        DistinctCount(ids, r[i]);
      }
    }
  }

  lemma DistinctCount(ids: seq<nat>, k: nat)
    requires forall i, j :: 0 <= i < j < |ids| ==> ids[i] != ids[j]
    ensures multiset(ids)[k] <= 1
  {
    if ids != [] {
      var init := ids[..|ids| - 1];
      DistinctCount(init, k);
      assert ids == init + [ids[|ids| - 1]];
      if ids[|ids| - 1] == k {
        assert k !in init;
      }
    }
  }

  /** Rows handed consecutive ids starting at `first`, as the database numbers
      rows inserted one after another. */
  function Numbered<T>(first: nat, rows: seq<T>): (m: map<nat, T>)
    ensures forall k :: k in m <==> first <= k < first + |rows|
    ensures forall k :: k in m ==> m[k] == rows[k - first]
  {
    if rows == [] then map[]
    else Numbered(first, rows[..|rows| - 1])[first + |rows| - 1 := rows[|rows| - 1]]
  }

  lemma NumberedSnoc<T>(first: nat, rows: seq<T>, x: T)
    ensures Numbered(first, rows + [x]) == Numbered(first, rows)[first + |rows| := x]
  {
    assert (rows + [x])[..|rows|] == rows;
  }

  /** One column of a table, row by row in id order: the values of `field`
      over the rows below `bound`. */
  function Column<T, U(!new)>(table: map<nat, T>, bound: nat, field: T -> U): (r: seq<U>)
    ensures forall x :: x in r <==> exists k :: k in table && k < bound && field(table[k]) == x
  {
    var ids := KeysBelow(table, bound);
    var r := seq(|ids|, i requires 0 <= i < |ids| => assert ids[i] in ids; field(table[ids[i]]));
    assert forall x :: (exists k :: k in table && k < bound && field(table[k]) == x) ==> x in r by {
      forall x | exists k :: k in table && k < bound && field(table[k]) == x
        ensures x in r
      {
        var k :| k in table && k < bound && field(table[k]) == x;
        var i :| 0 <= i < |ids| && ids[i] == k;
        assert r[i] == x;
      }
    }
    r
  }
}
