/**
 * A stable insertion sort over an arbitrary total preorder: equivalent elements
 * keep their input order (SortIsStable). It stands for both
 * sorts of the system. The client's `Array.prototype.sort` by `sentAt` is stable
 * as well. The store's `sort({lastActivity: -1, updatedAt: -1})` returns ties in
 * an unspecified order; the model picks one, the stored (natural) order.
 */
module Sorting {

  /** `le` is total and transitive, as a comparator-derived ordering must be. */
  ghost predicate TotalPreorder<T(!new)>(le: (T, T) -> bool) {
    && (forall a, b :: le(a, b) || le(b, a))
    && (forall a, b, c :: le(a, b) && le(b, c) ==> le(a, c))
  }

  /** Every element is `le` every later element. */
  ghost predicate SortedBy<T>(le: (T, T) -> bool, s: seq<T>) {
    forall i, j :: 0 <= i < j < |s| ==> le(s[i], s[j])
  }

  /** Inserts `x` before the first element it is `le` to, so earlier equals stay first. */
  function Insert<T(!new)>(le: (T, T) -> bool, x: T, s: seq<T>): (r: seq<T>)
    requires TotalPreorder(le)
    requires SortedBy(le, s)
    ensures SortedBy(le, r)
    ensures multiset(r) == multiset(s) + multiset{x}
    ensures |r| == |s| + 1
  {
    if s == [] then [x]
    else if le(x, s[0]) then [x] + s
    else
      var rest := Insert(le, x, s[1..]);
      assert s == [s[0]] + s[1..];
      HeadBelowInserted(le, x, s, rest);
      [s[0]] + rest
  }

  /** When `x` goes after the head, the head is `le` everything the tail insertion produced. */
  lemma HeadBelowInserted<T(!new)>(le: (T, T) -> bool, x: T, s: seq<T>, rest: seq<T>)
    requires TotalPreorder(le)
    requires SortedBy(le, s) && s != [] && !le(x, s[0])
    requires multiset(rest) == multiset(s[1..]) + multiset{x}
    ensures forall k :: 0 <= k < |rest| ==> le(s[0], rest[k])
  {
    forall k | 0 <= k < |rest|
      ensures le(s[0], rest[k])
    {
      assert rest[k] in multiset(rest);
      if rest[k] != x {
        assert rest[k] in multiset(s[1..]);
        var m :| 0 <= m < |s[1..]| && s[1..][m] == rest[k];
        assert s[m + 1] == rest[k];
      }
    }
  }

  /** Sorts `s` by `le`; the result is an ordered permutation of the input. */
  function Sort<T(!new)>(le: (T, T) -> bool, s: seq<T>): (r: seq<T>)
    requires TotalPreorder(le)
    ensures SortedBy(le, r)
    ensures multiset(r) == multiset(s)
    ensures |r| == |s|
  {
    if s == [] then []
    else
      assert s == [s[0]] + s[1..];
      Insert(le, s[0], Sort(le, s[1..]))
  }

  /** An already ordered sequence is its own sort (a stable sort keeps it as is). */
  lemma {:induction false} SortOfSorted<T(!new)>(le: (T, T) -> bool, s: seq<T>)
    requires TotalPreorder(le)
    requires SortedBy(le, s)
    ensures Sort(le, s) == s
  {
    if s != [] {
      SortOfSorted(le, s[1..]);
      assert Sort(le, s[1..]) == s[1..];
      if |s| > 1 {
        assert le(s[0], s[1]);
      }
    }
  }

  /** The elements of `s` equivalent to `y` under `le` (each `le` the other), in their order in `s`. */
  function EquivalentTo<T>(le: (T, T) -> bool, y: T, s: seq<T>): (r: seq<T>)
    ensures forall k :: 0 <= k < |r| ==> le(r[k], y) && le(y, r[k])
    ensures |r| <= |s|
  {
    if s == [] then []
    else (if le(s[0], y) && le(y, s[0]) then [s[0]] else []) + EquivalentTo(le, y, s[1..])
  }

  /** Filtering a sequence with `z` in front filters `z` and then the rest. */
  lemma EquivalentToCons<T>(le: (T, T) -> bool, y: T, z: T, s: seq<T>)
    ensures EquivalentTo(le, y, [z] + s) == (if le(z, y) && le(y, z) then [z] else []) + EquivalentTo(le, y, s)
  {
    assert ([z] + s)[1..] == s;
  }

  /** Two fronts of which one is empty can be put on in either order. */
  lemma SwapFront<T>(a: seq<T>, b: seq<T>, t: seq<T>)
    requires a == [] || b == []
    ensures a + (b + t) == b + (a + t)
  {
  }

  /** Inserting `x` puts it ahead of every element equivalent to it. */
  lemma {:induction false} InsertKeepsEquivalentOrder<T(!new)>(le: (T, T) -> bool, x: T, s: seq<T>, y: T)
    requires TotalPreorder(le)
    requires SortedBy(le, s)
    ensures EquivalentTo(le, y, Insert(le, x, s))
         == (if le(x, y) && le(y, x) then [x] else []) + EquivalentTo(le, y, s)
  {
    if s == [] {
    } else if le(x, s[0]) {
      EquivalentToCons(le, y, x, s);
    } else {
      var rest := Insert(le, x, s[1..]);
      assert s == [s[0]] + s[1..];
      assert Insert(le, x, s) == [s[0]] + rest;
      InsertKeepsEquivalentOrder(le, x, s[1..], y);
      var head := if le(s[0], y) && le(y, s[0]) then [s[0]] else [];
      var front := if le(x, y) && le(y, x) then [x] else [];
      EquivalentToCons(le, y, s[0], rest);
      EquivalentToCons(le, y, s[0], s[1..]);
      if head != [] && front != [] {
        assert false;
      }
      SwapFront(head, front, EquivalentTo(le, y, s[1..]));
    }
  }

  /** Stability: the sort keeps the elements of every equivalence class in their input order. */
  lemma {:induction false} SortIsStable<T(!new)>(le: (T, T) -> bool, s: seq<T>, y: T)
    requires TotalPreorder(le)
    ensures EquivalentTo(le, y, Sort(le, s)) == EquivalentTo(le, y, s)
  {
    if s != [] {
      SortIsStable(le, s[1..], y);
      InsertKeepsEquivalentOrder(le, s[0], Sort(le, s[1..]), y);
    }
  }
}
