/** Calendar dates as day numbers and the sorted-sequence operations the
    engine applies to lists of dates (`sort`, `dedup`). */
module Dates {

  /** A calendar date as a day number. Day 0 is a Monday, so the weekday
      index counted from Monday (chrono's `num_days_from_monday`) is the
      day number modulo 7; Dafny's `%` is Euclidean, so this also holds for
      negative day numbers. */
  type Date = int

  /** Weekday index, 0 = Monday … 6 = Sunday. */
  function Weekday(d: Date): (w: int)
    ensures 0 <= w < 7
    ensures (d - w) % 7 == 0
  {
    d % 7
  }

  predicate Sorted(s: seq<Date>) {
    forall i, j :: 0 <= i < j < |s| ==> s[i] <= s[j]
  }

  predicate StrictlyAscending(s: seq<Date>) {
    forall i, j :: 0 <= i < j < |s| ==> s[i] < s[j]
  }

  /** Insertion of one date into a sorted sequence. */
  function Insert(x: Date, s: seq<Date>): (r: seq<Date>)
    requires Sorted(s)
    ensures Sorted(r)
    ensures multiset(r) == multiset(s) + multiset{x}
    ensures forall y :: y in r ==> y in s || y == x
  {
    if s == [] || x <= s[0] then
      ConsSorted(x, s);
      [x] + s
    else
      var t := Insert(x, s[1..]);
      assert s == [s[0]] + s[1..];
      HeadBelowRest(s);
      ConsSorted(s[0], t);
      [s[0]] + t
  }

  /** The first element of a sorted sequence is below all the others. */
  lemma HeadBelowRest(s: seq<Date>)
    requires Sorted(s) && s != []
    ensures forall y :: y in s[1..] ==> s[0] <= y
  {
    forall y | y in s[1..] ensures s[0] <= y {
      var k :| 0 <= k < |s[1..]| && s[1..][k] == y;
      assert s[k + 1] == y;
    }
  }

  /** Putting a lower bound in front of a sorted sequence keeps it sorted. */
  lemma ConsSorted(a: Date, t: seq<Date>)
    requires Sorted(t) && forall y :: y in t ==> a <= y
    ensures Sorted([a] + t)
  {
    var r := [a] + t;
    forall i, j | 0 <= i < j < |r| ensures r[i] <= r[j] {
      assert r[j] == t[j - 1];
      if i == 0 {
        assert t[j - 1] in t;
      } else {
        assert r[i] == t[i - 1];
      }
    }
  }

  /** `slice::sort`: an ascending permutation of `s`. */
  function Sort(s: seq<Date>): (r: seq<Date>)
    ensures Sorted(r)
    ensures multiset(r) == multiset(s)
  {
    if s == [] then
      []
    else
      assert s == [s[0]] + s[1..];
      Insert(s[0], Sort(s[1..]))
  }

  /** `Vec::dedup`: removes consecutive repeated elements only. */
  function Dedup(s: seq<Date>): seq<Date> {
    if |s| <= 1 then s
    else if s[0] == s[1] then Dedup(s[1..])
    else [s[0]] + Dedup(s[1..])
  }

  /** Adds `x` to a strictly ascending sequence unless it holds it already. */
  function InsertNew(x: Date, s: seq<Date>): (r: seq<Date>)
    requires StrictlyAscending(s)
    ensures StrictlyAscending(r)
    ensures forall y :: y in r <==> y in s || y == x
  {
    if s == [] || x < s[0] then
      assert forall y :: y in s ==> x < y by {
        forall y | y in s ensures x < y {
          var k :| 0 <= k < |s| && s[k] == y;
          assert s[0] <= s[k];
        }
      }
      AscendingCons(x, s);
      [x] + s
    else if x == s[0] then
      s
    else
      var t := InsertNew(x, s[1..]);
      assert s == [s[0]] + s[1..];
      assert forall y :: y in t ==> s[0] < y by {
        forall y | y in t ensures s[0] < y {
          if y != x {
            var k :| 1 <= k < |s| && s[k] == y;
          }
        }
      }
      AscendingCons(s[0], t);
      [s[0]] + t
  }

  /** Putting a strict lower bound in front of a strictly ascending
      sequence keeps it strictly ascending. */
  lemma AscendingCons(a: Date, t: seq<Date>)
    requires StrictlyAscending(t) && forall y :: y in t ==> a < y
    ensures StrictlyAscending([a] + t)
  {
    var r := [a] + t;
    forall i, j | 0 <= i < j < |r| ensures r[i] < r[j] {
      assert r[j] == t[j - 1];
      if i == 0 {
        assert t[j - 1] in t;
      } else {
        assert r[i] == t[i - 1];
      }
    }
  }

  /** The dates of `s`, each once, in ascending order: what `sort()`
      followed by `dedup()` leaves (`NormalizeIsSortDedup`). */
  function Normalize(s: seq<Date>): (r: seq<Date>)
    ensures StrictlyAscending(r)
    ensures forall x :: x in r <==> x in s
  {
    if s == [] then []
    else
      var r := InsertNew(s[|s| - 1], Normalize(s[..|s| - 1]));
      assert forall x :: x in s <==> x in s[..|s| - 1] || x == s[|s| - 1] by {
        assert s == s[..|s| - 1] + [s[|s| - 1]];
      }
      r
  }

  /** `Normalize` is `sort()` followed by `dedup()`. */
  lemma NormalizeIsSortDedup(s: seq<Date>)
    ensures Normalize(s) == Dedup(Sort(s))
  {
    var t := Sort(s);
    DedupSorted(t);
    assert forall x :: x in t <==> x in multiset(t);
    assert forall x :: x in s <==> x in multiset(s);
    AscendingUnique(Normalize(s), Dedup(t));
  }

  /** On a sorted sequence, `dedup` leaves a strictly ascending sequence
      with the same elements and the same first element. */
  lemma {:induction false} DedupSorted(s: seq<Date>)
    requires Sorted(s)
    ensures StrictlyAscending(Dedup(s))
    ensures forall x :: x in Dedup(s) <==> x in s
    ensures |s| > 0 ==> |Dedup(s)| > 0 && Dedup(s)[0] == s[0]
  {
    if |s| > 1 {
      DedupSorted(s[1..]);
      var t := Dedup(s[1..]);
      if s[0] != s[1] {
        assert forall x :: x in t ==> s[0] < x by {
          forall x | x in t ensures s[0] < x {
            var k :| 1 <= k < |s| && s[k] == x;
            assert s[0] <= s[1] <= s[k];
          }
        }
        var r := [s[0]] + t;
        forall i, j | 0 <= i < j < |r| ensures r[i] < r[j] {
          if i > 0 {
            assert r[i] == t[i - 1] && r[j] == t[j - 1];
          } else {
            assert r[j] in t;
          }
        }
      }
    }
  }

  /** `dedup` leaves a strictly ascending sequence unchanged. */
  lemma {:induction false} DedupAscending(s: seq<Date>)
    requires StrictlyAscending(s)
    ensures Dedup(s) == s
  {
    if |s| > 1 {
      DedupAscending(s[1..]);
      assert s == [s[0]] + s[1..];
    }
  }

  /** Two sorted sequences holding the same multiset of dates are equal:
      sorting has exactly one possible result. */
  lemma {:induction false} SortedUnique(a: seq<Date>, b: seq<Date>)
    requires Sorted(a) && Sorted(b)
    requires multiset(a) == multiset(b)
    ensures a == b
  {
    assert |a| == |multiset(a)| == |multiset(b)| == |b|;
    if a != [] {
      SameHead(a, b);
      SortedUnique(a[1..], b[1..]);
      assert a == [a[0]] + a[1..];
      assert b == [b[0]] + b[1..];
    }
  }

  /** Two non-empty sorted sequences with the same multiset start with the
      same date, and the rest hold the same multiset. */
  lemma SameHead(a: seq<Date>, b: seq<Date>)
    requires Sorted(a) && Sorted(b) && a != [] && b != []
    requires multiset(a) == multiset(b)
    ensures a[0] == b[0]
    ensures Sorted(a[1..]) && Sorted(b[1..])
    ensures multiset(a[1..]) == multiset(b[1..])
  {
    SameFirst(a, b);
    assert a == [a[0]] + a[1..];
    assert b == [b[0]] + b[1..];
    assert multiset(a[1..]) == multiset(a) - multiset{a[0]};
    assert multiset(b[1..]) == multiset(b) - multiset{b[0]};
  }

  /** Two non-empty sorted sequences with the same multiset start with the
      same date: the least one. */
  lemma SameFirst(a: seq<Date>, b: seq<Date>)
    requires Sorted(a) && Sorted(b) && a != [] && b != []
    requires multiset(a) == multiset(b)
    ensures a[0] == b[0]
  {
    assert a[0] in multiset(b);
    assert b[0] in multiset(a);
    var i :| 0 <= i < |b| && b[i] == a[0];
    var j :| 0 <= j < |a| && a[j] == b[0];
    assert b[0] <= b[i] && a[0] <= a[j];
  }

  /** Sorting an already sorted sequence changes nothing. */
  lemma SortSorted(s: seq<Date>)
    requires Sorted(s)
    ensures Sort(s) == s
  {
    SortedUnique(Sort(s), s);
  }

  /** `sort` + `dedup` run twice gives the same as once. */
  lemma NormalizeIdempotent(s: seq<Date>)
    ensures Normalize(Normalize(s)) == Normalize(s)
  {
    var n := Normalize(s);
    AscendingUnique(Normalize(n), n);
  }

  /** A strictly ascending sequence is fixed by its set of elements. */
  lemma {:induction false} AscendingUnique(a: seq<Date>, b: seq<Date>)
    requires StrictlyAscending(a) && StrictlyAscending(b)
    requires forall x :: x in a <==> x in b
    ensures a == b
  {
    if a != [] { assert a[0] in a; }
    if b != [] { assert b[0] in b; }
    if a != [] && b != [] {
      var i :| 0 <= i < |b| && b[i] == a[0];
      var j :| 0 <= j < |a| && a[j] == b[0];
      assert b[0] <= b[i] && a[0] <= a[j];
      assert a[0] == b[0];
      forall x ensures x in a[1..] <==> x in b[1..] {
        if x in a[1..] {
          assert x in b && x != b[0];
          var k :| 0 <= k < |b| && b[k] == x;
        }
        if x in b[1..] {
          assert x in a && x != a[0];
          var k :| 0 <= k < |a| && a[k] == x;
        }
      }
      AscendingUnique(a[1..], b[1..]);
      assert a == [a[0]] + a[1..];
      assert b == [b[0]] + b[1..];
    }
  }

  /** Inserting a date absent from a strictly ascending sequence and sorting
      keeps it strictly ascending. */
  lemma InsertFresh(h: seq<Date>, d: Date)
    requires StrictlyAscending(h)
    requires d !in h
    ensures StrictlyAscending(Sort(h + [d]))
    ensures forall x :: x in Sort(h + [d]) <==> x in h || x == d
  {
    var r := Sort(h + [d]);
    forall x ensures x in r <==> x in h || x == d {
      assert x in r <==> x in multiset(r);
      assert x in h + [d] <==> x in multiset(h + [d]);
    }
    forall i, j | 0 <= i < j < |r| ensures r[i] < r[j] {
      TwoPositions(r, i, j);
      CountFresh(h, d, r[i]);
    }
  }

  lemma CountFresh(h: seq<Date>, d: Date, x: Date)
    requires StrictlyAscending(h) && d !in h
    ensures multiset(h + [d])[x] <= 1
  {
    CountAtMostOne(h, x);
    assert multiset(h + [d]) == multiset(h) + multiset{d};
  }

  /** Equal elements at two positions occur at least twice. */
  lemma TwoPositions(r: seq<Date>, i: int, j: int)
    requires 0 <= i < j < |r|
    ensures r[i] == r[j] ==> multiset(r)[r[i]] >= 2
  {
    if r[i] == r[j] {
      assert r == r[..i] + [r[i]] + r[i + 1..j] + [r[j]] + r[j + 1..];
    }
  }
  lemma {:induction false} CountAtMostOne(h: seq<Date>, x: Date)
    requires StrictlyAscending(h)
    ensures multiset(h)[x] <= 1
    ensures x !in h ==> multiset(h)[x] == 0
  {
    if h != [] {
      assert h == [h[0]] + h[1..];
      CountAtMostOne(h[1..], x);
      if x == h[0] {
        assert x !in h[1..] by {
          forall k | 1 <= k < |h| ensures h[k] != x { assert h[0] < h[k]; }
        }
      }
    }
  }
  /** No element occurs twice (the contents of a `HashSet`). */
  predicate Distinct<T(==)>(s: seq<T>) {
    forall i, j :: 0 <= i < j < |s| ==> s[i] != s[j]
  }

  lemma {:induction false} DistinctCount(s: seq<Date>, x: Date)
    requires Distinct(s)
    ensures multiset(s)[x] <= 1
  {
    if s != [] {
      assert s == [s[0]] + s[1..];
      DistinctCount(s[1..], x);
      if x == s[0] {
        assert x !in s[1..] by {
          forall k | 1 <= k < |s| ensures s[k] != x { assert s[0] != s[k]; }
        }
      }
    }
  }

  /** Sorting a duplicate-free sequence gives a strictly ascending one with
      the same dates. */
  lemma SortDistinct(s: seq<Date>)
    requires Distinct(s)
    ensures StrictlyAscending(Sort(s))
    ensures forall x :: x in Sort(s) <==> x in s
  {
    var r := Sort(s);
    forall x ensures x in r <==> x in s {
      assert x in r <==> x in multiset(r);
      assert x in s <==> x in multiset(s);
    }
    forall i, j | 0 <= i < j < |r| ensures r[i] < r[j] {
      TwoPositions(r, i, j);
      DistinctCount(s, r[i]);
    }
  }
}
