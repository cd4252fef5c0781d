/**
 * `getLastNDays` (app.js:71-78): keep the entries whose timestamp is at or
 * after a cutoff, then sort that copy ascending by timestamp with
 * `Array.prototype.sort`, which is stable, so entries with equal
 * timestamps keep their stored order.
 */
module History {
  import opened Entries

  /** `entries.filter(e => e.datetime >= cutoff)`: a new sequence in stored order. */
  function FilterSince(s: seq<Entry>, cutoff: int): (r: seq<Entry>)
    ensures forall e :: multiset(r)[e] == if e.datetime >= cutoff then multiset(s)[e] else 0
  {
    if s == [] then []
    else
      assert s == [s[0]] + s[1..];
      (if s[0].datetime >= cutoff then [s[0]] else []) + FilterSince(s[1..], cutoff)
  }

  /** The entries of `s` stamped exactly `t`, in their order in `s`. */
  function WithDatetime(s: seq<Entry>, t: int): seq<Entry>
  {
    if s == [] then [] else (if s[0].datetime == t then [s[0]] else []) + WithDatetime(s[1..], t)
  }

  predicate SortedByDatetime(s: seq<Entry>)
  {
    forall i, j :: 0 <= i < j < |s| ==> s[i].datetime <= s[j].datetime
  }

  /** Places `e` before the first element of `s` that is not earlier than it. */
  function Insert(e: Entry, s: seq<Entry>): (r: seq<Entry>)
    ensures multiset(r) == multiset(s) + multiset{e}
  {
    if s == [] || e.datetime <= s[0].datetime then [e] + s
    else
      assert s == [s[0]] + s[1..];
      [s[0]] + Insert(e, s[1..])
  }

  /** Every element of `Insert(e, s)` is `e` or comes from `s`, in a bound-preserving way. */
  lemma {:induction false} InsertLowerBound(e: Entry, s: seq<Entry>, lo: int)
    requires lo <= e.datetime
    requires forall i :: 0 <= i < |s| ==> lo <= s[i].datetime
    ensures forall i :: 0 <= i < |Insert(e, s)| ==> lo <= Insert(e, s)[i].datetime
  {
    if s != [] && e.datetime > s[0].datetime {
      InsertLowerBound(e, s[1..], lo);
    }
  }

  lemma {:induction false} InsertSorted(e: Entry, s: seq<Entry>)
    requires SortedByDatetime(s)
    ensures SortedByDatetime(Insert(e, s))
  {
    if s != [] && e.datetime > s[0].datetime {
      var rest := Insert(e, s[1..]);
      InsertSorted(e, s[1..]);
      InsertLowerBound(e, s[1..], s[0].datetime);
      assert Insert(e, s) == [s[0]] + rest;
    }
  }

  /**
   * `sort((a, b) => a.datetime - b.datetime)`: a stable insertion sort.
   * Which stable algorithm is used does not matter (see StableSortUnique).
   */
  function SortByDatetime(s: seq<Entry>): (r: seq<Entry>)
    ensures multiset(r) == multiset(s)
    ensures SortedByDatetime(r)
  {
    if s == [] then []
    else
      assert s == [s[0]] + s[1..];
      var sortedRest := SortByDatetime(s[1..]);
      InsertSorted(s[0], sortedRest);
      Insert(s[0], sortedRest)
  }

  /** The filter looks at the first entry, then at the rest. */
  lemma FilterSinceFirst(s: seq<Entry>, cutoff: int)
    requires s != []
    ensures FilterSince(s, cutoff) == (if s[0].datetime >= cutoff then [s[0]] else []) + FilterSince(s[1..], cutoff)
  {
  }

  /**
   * Filtering distributes over concatenation: the kept entries of a log are
   * the kept entries of its first part followed by those of the rest, so
   * every kept entry stays in stored order.
   */
  lemma {:induction false} FilterSinceAppend(s1: seq<Entry>, s2: seq<Entry>, cutoff: int)
    ensures FilterSince(s1 + s2, cutoff) == FilterSince(s1, cutoff) + FilterSince(s2, cutoff)
  {
    if s1 == [] {
      assert s1 + s2 == s2;
    } else {
      var kept := if s1[0].datetime >= cutoff then [s1[0]] else [];
      assert (s1 + s2)[0] == s1[0] && (s1 + s2)[1..] == s1[1..] + s2;
      FilterSinceFirst(s1 + s2, cutoff);
      FilterSinceFirst(s1, cutoff);
      FilterSinceAppend(s1[1..], s2, cutoff);
      ConcatAssoc(kept, FilterSince(s1[1..], cutoff), FilterSince(s2, cutoff));
    }
  }

  lemma ConcatAssoc<T>(a: seq<T>, b: seq<T>, c: seq<T>)
    ensures a + (b + c) == (a + b) + c
  {
  }

  /** A single entry is kept exactly when it is stamped at or after the cutoff. */
  lemma FilterSinceSingle(e: Entry, cutoff: int)
    ensures FilterSince([e], cutoff) == if e.datetime >= cutoff then [e] else []
  {
    assert [e][1..] == [];
  }

  /** Among entries with the same timestamp, filtering keeps the stored order. */
  lemma {:induction false} FilterSinceWithDatetime(s: seq<Entry>, cutoff: int, t: int)
    ensures WithDatetime(FilterSince(s, cutoff), t) == if t >= cutoff then WithDatetime(s, t) else []
  {
    if s != [] {
      FilterSinceWithDatetime(s[1..], cutoff, t);
      WithDatetimeAppend(if s[0].datetime >= cutoff then [s[0]] else [], FilterSince(s[1..], cutoff), t);
    }
  }

  lemma {:induction false} WithDatetimeAppend(a: seq<Entry>, b: seq<Entry>, t: int)
    ensures WithDatetime(a + b, t) == WithDatetime(a, t) + WithDatetime(b, t)
  {
    if a != [] {
      assert (a + b)[0] == a[0] && (a + b)[1..] == a[1..] + b;
      WithDatetimeAppend(a[1..], b, t);
      var head := if a[0].datetime == t then [a[0]] else [];
      calc {
        WithDatetime(a + b, t);
        head + WithDatetime(a[1..] + b, t);
        head + (WithDatetime(a[1..], t) + WithDatetime(b, t));
        (head + WithDatetime(a[1..], t)) + WithDatetime(b, t);
      }
    } else {
      assert a + b == b;
    }
  }

  lemma {:induction false} InsertWithDatetime(e: Entry, s: seq<Entry>, t: int)
    ensures WithDatetime(Insert(e, s), t) == (if e.datetime == t then [e] else []) + WithDatetime(s, t)
  {
    var mine := if e.datetime == t then [e] else [];
    if s == [] || e.datetime <= s[0].datetime {
      var ins := [e] + s;
      assert ins[0] == e && ins[1..] == s;
      assert WithDatetime(ins, t) == mine + WithDatetime(s, t);
    } else {
      var rest := Insert(e, s[1..]);
      var ins := [s[0]] + rest;
      assert ins[0] == s[0] && ins[1..] == rest;
      var first := if s[0].datetime == t then [s[0]] else [];
      var later := WithDatetime(s[1..], t);
      assert WithDatetime(ins, t) == first + WithDatetime(rest, t);
      assert WithDatetime(s, t) == first + later;
      InsertWithDatetime(e, s[1..], t);
      SwapPastEmpty(first, mine, later);
    }
  }

  /** Two prefixes of which one is empty can be put in either order. */
  lemma SwapPastEmpty<T>(x: seq<T>, y: seq<T>, z: seq<T>)
    requires x == [] || y == []
    ensures x + (y + z) == y + (x + z)
  {
    if x == [] {
      assert [] + (y + z) == y + z && [] + z == z;
    } else {
      assert [] + (x + z) == x + z && [] + z == z;
    }
  }

  /** The sort is stable: among entries with equal timestamps the input order survives. */
  lemma {:induction false} SortWithDatetime(s: seq<Entry>, t: int)
    ensures WithDatetime(SortByDatetime(s), t) == WithDatetime(s, t)
  {
    if s != [] {
      SortWithDatetime(s[1..], t);
      InsertWithDatetime(s[0], SortByDatetime(s[1..]), t);
    }
  }

  lemma {:induction false} WithDatetimeMembers(s: seq<Entry>, t: int, x: Entry)
    requires x in WithDatetime(s, t)
    ensures x in s && x.datetime == t
  {
    if s != [] && !(s[0].datetime == t && x == s[0]) {
      WithDatetimeMembers(s[1..], t, x);
    }
  }

  /** The first entry of a sorted sequence is stamped no later than any of its entries. */
  lemma SortedFirstIsEarliest(s: seq<Entry>, x: Entry)
    requires SortedByDatetime(s) && x in s
    ensures s[0].datetime <= x.datetime
  {
    var k :| 0 <= k < |s| && s[k] == x;
    if k > 0 {
      assert s[0].datetime <= s[k].datetime;
    }
  }

  /** Two sorted sequences with the same per-timestamp subsequences start with the same entry. */
  lemma SameHead(a: seq<Entry>, b: seq<Entry>)
    requires a != [] && b != []
    requires SortedByDatetime(a) && SortedByDatetime(b)
    requires forall t :: WithDatetime(a, t) == WithDatetime(b, t)
    ensures a[0] == b[0]
  {
    var ta, tb := a[0].datetime, b[0].datetime;
    var wa, wb := WithDatetime(a, ta), WithDatetime(b, tb);
    assert wa == [a[0]] + WithDatetime(a[1..], ta);
    assert wb == [b[0]] + WithDatetime(b[1..], tb);
    assert a[0] in WithDatetime(b, ta) by {
      assert wa[0] == a[0];
    }
    assert b[0] in WithDatetime(a, tb) by {
      assert wb[0] == b[0];
    }
    WithDatetimeMembers(b, ta, a[0]);
    WithDatetimeMembers(a, tb, b[0]);
    SortedFirstIsEarliest(b, a[0]);
    SortedFirstIsEarliest(a, b[0]);
    assert wa == wb;
  }

  /** Dropping a common first entry keeps the per-timestamp subsequences equal. */
  lemma SameTails(a: seq<Entry>, b: seq<Entry>)
    requires a != [] && b != [] && a[0] == b[0]
    requires forall t :: WithDatetime(a, t) == WithDatetime(b, t)
    ensures forall t :: WithDatetime(a[1..], t) == WithDatetime(b[1..], t)
  {
    forall t
      ensures WithDatetime(a[1..], t) == WithDatetime(b[1..], t)
    {
      var wa, wb := WithDatetime(a[1..], t), WithDatetime(b[1..], t);
      if a[0].datetime == t {
        assert WithDatetime(a, t) == [a[0]] + wa && WithDatetime(b, t) == [b[0]] + wb;
        assert ([a[0]] + wa)[1..] == wa && ([b[0]] + wb)[1..] == wb;
      } else {
        assert WithDatetime(a, t) == [] + wa && WithDatetime(b, t) == [] + wb;
        assert [] + wa == wa && [] + wb == wb;
      }
    }
  }

  /** Permutations with the same first entry have permuted tails. */
  lemma SameTailMultiset(a: seq<Entry>, b: seq<Entry>)
    requires a != [] && b != [] && a[0] == b[0]
    requires multiset(a) == multiset(b)
    ensures multiset(a[1..]) == multiset(b[1..])
  {
    assert a == [a[0]] + a[1..] && b == [b[0]] + b[1..];
    assert multiset(a[1..]) == multiset(a) - multiset{a[0]};
    assert multiset(b[1..]) == multiset(b) - multiset{b[0]};
  }

  /**
   * A sorted permutation is determined by its per-timestamp subsequences:
   * any two stable sorts of the same input agree.
   */
  lemma {:induction false} StableSortUnique(a: seq<Entry>, b: seq<Entry>)
    requires multiset(a) == multiset(b)
    requires SortedByDatetime(a) && SortedByDatetime(b)
    requires forall t :: WithDatetime(a, t) == WithDatetime(b, t)
    ensures a == b
    decreases |a|
  {
    assert |a| == |b| by {
      assert |a| == |multiset(a)| == |multiset(b)| == |b|;
    }
    if a != [] {
      SameHead(a, b);
      SameTails(a, b);
      SameTailMultiset(a, b);
      StableSortUnique(a[1..], b[1..]);
      assert a == [a[0]] + a[1..] && b == [b[0]] + b[1..];
    }
  }

  /**
   * The filter-then-stable-sort result is the only sequence holding exactly
   * the recent entries, sorted by timestamp, with ties in stored order.
   */
  lemma RecentDetermined(s: seq<Entry>, cutoff: int, r: seq<Entry>)
    requires forall e :: multiset(r)[e] == if e.datetime >= cutoff then multiset(s)[e] else 0
    requires SortedByDatetime(r)
    requires forall t :: WithDatetime(r, t) == if t >= cutoff then WithDatetime(s, t) else []
    ensures r == SortByDatetime(FilterSince(s, cutoff))
  {
    var recent := FilterSince(s, cutoff);
    var sorted := SortByDatetime(recent);
    assert multiset(r) == multiset(sorted) by {
      forall e
        ensures multiset(r)[e] == multiset(sorted)[e]
      {
      }
    }
    forall t
      ensures WithDatetime(r, t) == WithDatetime(sorted, t)
    {
      SortWithDatetime(recent, t);
      FilterSinceWithDatetime(s, cutoff, t);
    }
    StableSortUnique(r, sorted);
  }
}
