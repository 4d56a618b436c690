/** Sorting by a key of one or two integers, as `ORDER BY` and `sort_by_key` do it, and why the result is
    unique when keys are distinct. */
module Orders {
  predicate Distinct<T(==)>(s: seq<T>) {
    forall i, j | 0 <= i < j < |s| :: s[i] != s[j]
  }

  /** Compared by `major`, then by `minor`. */
  datatype Key = Key(major: int, minor: int)

  predicate AtMost(a: Key, b: Key) {
    a.major < b.major || (a.major == b.major && a.minor <= b.minor)
  }

  predicate Ascending<T>(key: T -> Key, s: seq<T>) {
    forall i, j | 0 <= i < j < |s| :: AtMost(key(s[i]), key(s[j]))
  }

  predicate DistinctKeys<T>(key: T -> Key, s: seq<T>) {
    forall i, j | 0 <= i < j < |s| :: key(s[i]) != key(s[j])
  }

  function Place<T(==)>(key: T -> Key, x: T, s: seq<T>): (r: seq<T>)
    requires Ascending(key, s)
    ensures Ascending(key, r) && |r| == |s| + 1
    ensures forall y | y in r :: y == x || y in s
  {
    if s == [] || AtMost(key(x), key(s[0])) then [x] + s
    else
      assert s == [s[0]] + s[1..];
      var rest := Place(key, x, s[1..]);
      assert forall j | 0 <= j < |rest| :: rest[j] in rest;
      [s[0]] + rest
  }

  lemma {:induction false} PlaceKeepsBag<T>(key: T -> Key, x: T, s: seq<T>)
    requires Ascending(key, s)
    ensures multiset(Place(key, x, s)) == multiset(s) + multiset{x}
  {
    if s != [] {
      assert s == [s[0]] + s[1..];
      if !AtMost(key(x), key(s[0])) {
        PlaceKeepsBag(key, x, s[1..]);
      }
    }
  }

  function Sort<T(==)>(key: T -> Key, s: seq<T>): (r: seq<T>)
    ensures Ascending(key, r) && |r| == |s|
  {
    if s == [] then [] else Place(key, s[0], Sort(key, s[1..]))
  }

  lemma {:induction false} SortKeepsBag<T>(key: T -> Key, s: seq<T>)
    ensures multiset(Sort(key, s)) == multiset(s)
  {
    if s != [] {
      assert s == [s[0]] + s[1..];
      SortKeepsBag(key, s[1..]);
      PlaceKeepsBag(key, s[0], Sort(key, s[1..]));
    }
  }

  lemma {:induction false} FirstIsLeast<T>(key: T -> Key, s: seq<T>, t: seq<T>)
    requires Ascending(key, s) && multiset(s) == multiset(t) && s != [] && t != []
    ensures AtMost(key(s[0]), key(t[0]))
  {
    assert t[0] in multiset(s);
    var j :| 0 <= j < |s| && s[j] == t[0];
  }

  lemma {:induction false} FirstsAgree<T>(key: T -> Key, s: seq<T>, t: seq<T>)
    requires Ascending(key, s) && Ascending(key, t) && DistinctKeys(key, s)
    requires multiset(s) == multiset(t) && s != [] && t != []
    ensures s[0] == t[0]
  {
    FirstIsLeast(key, s, t);
    FirstIsLeast(key, t, s);
    assert t[0] in multiset(s);
    var j :| 0 <= j < |s| && s[j] == t[0];
  }

  lemma {:induction false} TailBag<T>(s: seq<T>)
    requires s != []
    ensures multiset(s[1..]) == multiset(s) - multiset{s[0]}
  {
    assert s == [s[0]] + s[1..];
  }

  lemma SameFirstAndTail<T>(s: seq<T>, t: seq<T>)
    requires s != [] && t != [] && s[0] == t[0] && s[1..] == t[1..]
    ensures s == t
  {
    assert s == [s[0]] + s[1..] && t == [t[0]] + t[1..];
  }

  /** Distinct keys leave only one ascending order of the same elements. */
  lemma {:induction false} OrderIsUnique<T>(key: T -> Key, s: seq<T>, t: seq<T>)
    requires Ascending(key, s) && Ascending(key, t) && DistinctKeys(key, s) && multiset(s) == multiset(t)
    ensures s == t
  {
    assert |multiset(s)| == |s| && |multiset(t)| == |t|;
    if s != [] {
      FirstsAgree(key, s, t);
      assert s[1..] == t[1..] by {
        TailBag(s);
        TailBag(t);
        OrderIsUnique(key, s[1..], t[1..]);
      }
      SameFirstAndTail(s, t);
    }
  }

  /** So sorting any rearrangement of an ascending sequence gives that sequence back. */
  lemma {:induction false} SortRestores<T>(key: T -> Key, s: seq<T>, shuffled: seq<T>)
    requires Ascending(key, s) && DistinctKeys(key, s) && multiset(shuffled) == multiset(s)
    ensures Sort(key, shuffled) == s
  {
    SortKeepsBag(key, shuffled);
    OrderIsUnique(key, s, Sort(key, shuffled));
  }

  lemma {:induction false} SameBagDistinct<T>(s: seq<T>, t: seq<T>)
    requires multiset(s) == multiset(t)
    ensures |s| == |t| && (forall x :: x in s <==> x in t)
    ensures Distinct(s) ==> Distinct(t)
  {
    assert |multiset(s)| == |s| && |multiset(t)| == |t|;
    forall x ensures x in s <==> x in t {
      assert x in s <==> x in multiset(s);
      assert x in t <==> x in multiset(t);
    }
    if Distinct(s) {
      forall x ensures multiset(t)[x] <= 1 {
        DistinctOnce(s, x);
      }
      OnceDistinct(t);
    }
  }

  lemma {:induction false} DistinctOnce<T>(s: seq<T>, x: T)
    requires Distinct(s)
    ensures multiset(s)[x] <= 1
  {
    if s != [] {
      var last := |s| - 1;
      assert s == s[..last] + [s[last]];
      DistinctOnce(s[..last], x);
      if s[last] == x {
        assert x !in s[..last];
      }
    }
  }

  lemma OnceDistinct<T>(t: seq<T>)
    requires forall x :: multiset(t)[x] <= 1
    ensures Distinct(t)
  {
    forall i, j | 0 <= i < j < |t| ensures t[i] != t[j] {
      assert t == t[..j] + t[j..];
      assert t[i] in t[..j] && t[j] in t[j..];
      assert multiset(t)[t[j]] == multiset(t[..j])[t[j]] + multiset(t[j..])[t[j]];
      assert multiset(t[..j])[t[i]] >= 1 && multiset(t[j..])[t[j]] >= 1;
    }
  }

  // ---- First occurrences ----------------------------------------------------------------------

  /** Keep the first occurrence of each value, in order. */
  function FirstOccurrences<T(==)>(s: seq<T>): seq<T> {
    if s == [] then []
    else
      var init := FirstOccurrences(s[..|s| - 1]);
      if s[|s| - 1] in init then init else init + [s[|s| - 1]]
  }

  function FirstIndex<T(==)>(s: seq<T>, x: T): (i: nat)
    requires x in s
    ensures i < |s| && s[i] == x && forall k | 0 <= k < i :: s[k] != x
  {
    if s[0] == x then 0 else 1 + FirstIndex(s[1..], x)
  }

  lemma FirstOccurrencesSnoc<T>(s: seq<T>, x: T)
    ensures FirstOccurrences(s + [x])
      == if x in FirstOccurrences(s) then FirstOccurrences(s) else FirstOccurrences(s) + [x]
  {
    assert (s + [x])[..|s|] == s;
  }

  /** First occurrences are the same values, each once, ordered by where they first occur. */
  lemma {:induction false} FirstOccurrencesMeaning<T>(s: seq<T>)
    ensures forall x :: x in FirstOccurrences(s) <==> x in s
    ensures ByFirstIndex(s, FirstOccurrences(s))
  {
    if s != [] {
      var init, y := s[..|s| - 1], s[|s| - 1];
      FirstOccurrencesMeaning(init);
      assert s == init + [y];
      ByFirstIndexSnoc(init, FirstOccurrences(init), y);
    }
  }

  predicate ByFirstIndex<T(==)>(s: seq<T>, r: seq<T>) {
    forall i, j | 0 <= i < j < |r| :: FirstBefore(s, r[i], r[j])
  }

  predicate FirstBefore<T(==)>(s: seq<T>, x: T, y: T) {
    x in s && y in s && FirstIndex(s, x) < FirstIndex(s, y)
  }

  lemma ByFirstIndexSnoc<T>(s: seq<T>, r: seq<T>, y: T)
    requires ByFirstIndex(s, r) && forall x :: x in r <==> x in s
    ensures ByFirstIndex(s + [y], r)
    ensures y !in r ==> ByFirstIndex(s + [y], r + [y])
  {
    forall i, j | 0 <= i < j < |r| ensures FirstBefore(s + [y], r[i], r[j]) {
      assert FirstBefore(s, r[i], r[j]);
      FirstIndexStable(s, y, r[i]);
      FirstIndexStable(s, y, r[j]);
    }
    if y !in r {
      forall i | 0 <= i < |r| ensures FirstBefore(s + [y], r[i], y) {
        assert r[i] in r;
        FirstIndexStable(s, y, r[i]);
        NewValueComesLast(s, y);
      }
    }
  }

  lemma {:induction false} FirstIndexIs<T>(s: seq<T>, x: T, i: nat)
    requires i < |s| && s[i] == x && forall k | 0 <= k < i :: s[k] != x
    ensures x in s && FirstIndex(s, x) == i
  {
    var j := FirstIndex(s, x);
    assert !(j < i) && !(i < j);
  }

  lemma FirstIndexStable<T>(init: seq<T>, y: T, x: T)
    requires x in init
    ensures FirstIndex(init + [y], x) == FirstIndex(init, x)
  {
    FirstIndexIs(init + [y], x, FirstIndex(init, x));
  }

  lemma NewValueComesLast<T>(init: seq<T>, y: T)
    requires y !in init
    ensures FirstIndex(init + [y], y) == |init|
  {
    FirstIndexIs(init + [y], y, |init|);
  }
}
