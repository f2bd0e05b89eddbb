/** Order-preserving selection and the stable sort by time that the summary
    applies to every list of timed events (`list.sort(key=lambda x: x[0])`). */
module Timeline {
  import opened Events

  /** Ascending by time. */
  predicate Sorted(s: seq<Timed>)
  {
    forall i, j | 0 <= i < j < |s| :: s[i].time <= s[j].time
  }

  /** The elements of `s` that satisfy `p`, in their original order. */
  function Filter(s: seq<Timed>, p: Timed -> bool): (r: seq<Timed>)
    ensures |r| <= |s|
    ensures forall x | x in r :: x in s && p(x)
  {
    if s == [] then [] else (if p(s[0]) then [s[0]] else []) + Filter(s[1..], p)
  }

  /** Events stamped with time `t`. */
  function AtTime(t: int): Timed -> bool
  {
    (x: Timed) => x.time == t
  }

  lemma {:induction false} FilterMembership(s: seq<Timed>, p: Timed -> bool, x: Timed)
    ensures x in Filter(s, p) <==> x in s && p(x)
  {
    if s != [] {
      FilterMembership(s[1..], p, x);
      assert s == [s[0]] + s[1..];
    }
  }

  lemma {:induction false} FilterAppend(a: seq<Timed>, b: seq<Timed>, p: Timed -> bool)
    ensures Filter(a + b, p) == Filter(a, p) + Filter(b, p)
  {
    if a == [] {
      assert a + b == b;
    } else {
      assert (a + b)[0] == a[0];
      assert (a + b)[1..] == a[1..] + b;
      FilterAppend(a[1..], b, p);
    }
  }

  /** Appending one element extends the selection by it exactly when it is selected. */
  lemma FilterSnoc(s: seq<Timed>, x: Timed, p: Timed -> bool)
    ensures Filter(s + [x], p) == Filter(s, p) + (if p(x) then [x] else [])
  {
    FilterAppend(s, [x], p);
    assert Filter([x], p) == (if p(x) then [x] else []) + Filter([x][1..], p);
    assert [x][1..] == [];
  }

  lemma {:induction false} FilterNone(s: seq<Timed>, p: Timed -> bool)
    requires forall x | x in s :: !p(x)
    ensures Filter(s, p) == []
  {
    if s != [] {
      assert s[0] in s;
      assert forall x | x in s[1..] :: x in s;
      FilterNone(s[1..], p);
    }
  }

  lemma {:induction false} FilterAll(s: seq<Timed>, p: Timed -> bool)
    requires forall x | x in s :: p(x)
    ensures Filter(s, p) == s
  {
    if s != [] {
      assert s[0] in s;
      assert forall x | x in s[1..] :: x in s;
      FilterAll(s[1..], p);
      assert s == [s[0]] + s[1..];
    }
  }

  /** Places `x` before the first element that is not earlier than it. */
  function Insert(x: Timed, s: seq<Timed>): (r: seq<Timed>)
    ensures multiset(r) == multiset(s) + multiset{x}
  {
    if s == [] || x.time <= s[0].time then [x] + s
    else
      assert s == [s[0]] + s[1..];
      [s[0]] + Insert(x, s[1..])
  }

  /** Every element of `Insert(x, s)` comes from `s` or is `x`. */
  lemma InsertElements(x: Timed, s: seq<Timed>, y: Timed)
    requires y in Insert(x, s)
    ensures y == x || y in s
  {
    assert y in multiset(Insert(x, s));
    if y != x {
      assert y in multiset(s);
    }
  }

  /** A head no later than the rest of a sorted list keeps it sorted. */
  lemma SortedCons(h: Timed, r: seq<Timed>)
    requires Sorted(r)
    requires forall y | y in r :: h.time <= y.time
    ensures Sorted([h] + r)
  {
    var out := [h] + r;
    forall i, j | 0 <= i < j < |out|
      ensures out[i].time <= out[j].time
    {
      assert out[j] == r[j - 1];
      if i == 0 {
        assert r[j - 1] in r;
      } else {
        assert out[i] == r[i - 1];
      }
    }
  }

  lemma {:induction false} InsertSorted(x: Timed, s: seq<Timed>)
    requires Sorted(s)
    ensures Sorted(Insert(x, s))
  {
    if s == [] || x.time <= s[0].time {
      SortedCons(x, s);
    } else {
      var r := Insert(x, s[1..]);
      InsertSorted(x, s[1..]);
      forall y | y in r
        ensures s[0].time <= y.time
      {
        InsertElements(x, s[1..], y);
        if y != x {
          var i :| 0 <= i < |s[1..]| && s[1..][i] == y;
          assert s[i + 1] == y;
        }
      }
      SortedCons(s[0], r);
    }
  }

  /** Insertion sort by time; equal times keep their original order. */
  function SortByTime(s: seq<Timed>): (r: seq<Timed>)
    ensures Sorted(r)
    ensures multiset(r) == multiset(s) && |r| == |s|
  {
    if s == [] then []
    else
      var rest := SortByTime(s[1..]);
      InsertSorted(s[0], rest);
      assert s == [s[0]] + s[1..];
      assert |multiset(Insert(s[0], rest))| == |multiset(s)|;
      Insert(s[0], rest)
  }

  /** Sorting loses no element. */
  lemma SortKeepsElement(s: seq<Timed>, x: Timed)
    requires x in s
    ensures x in SortByTime(s)
  {
    assert x in multiset(s);
  }

  /** The head of a selection from a sorted list is not earlier than the list's head. */
  lemma FilterHeadNotEarlier(r: seq<Timed>, p: Timed -> bool)
    requires Sorted(r) && r != [] && Filter(r, p) != []
    ensures r[0].time <= Filter(r, p)[0].time
  {
    var f := Filter(r, p);
    assert f[0] in f;
    var k :| 0 <= k < |r| && r[k] == f[0];
    assert k == 0 || r[0].time <= r[k].time;
  }

  /** Selecting from an insertion is inserting into the selection. */
  lemma {:induction false} FilterInsert(x: Timed, r: seq<Timed>, p: Timed -> bool)
    requires Sorted(r)
    ensures Filter(Insert(x, r), p) == if p(x) then Insert(x, Filter(r, p)) else Filter(r, p)
  {
    if r == [] || x.time <= r[0].time {
      var f := Filter(r, p);
      assert Insert(x, r) == [x] + r;
      assert ([x] + r)[0] == x && ([x] + r)[1..] == r;
      assert Filter([x] + r, p) == (if p(x) then [x] else []) + f;
      if p(x) && f != [] {
        FilterHeadNotEarlier(r, p);
      }
    } else {
      var tail := Insert(x, r[1..]);
      assert Sorted(r[1..]);
      FilterInsert(x, r[1..], p);
      assert Insert(x, r) == [r[0]] + tail;
      assert ([r[0]] + tail)[0] == r[0] && ([r[0]] + tail)[1..] == tail;
      var f1 := Filter(r[1..], p);
      assert Filter(r, p) == (if p(r[0]) then [r[0]] else []) + f1;
      assert Filter([r[0]] + tail, p) == (if p(r[0]) then [r[0]] else []) + Filter(tail, p);
      if p(r[0]) {
        assert Filter(r, p) == [r[0]] + f1;
        assert Filter(Insert(x, r), p) == [r[0]] + Filter(tail, p);
        if p(x) {
          assert ([r[0]] + f1)[0] == r[0] && ([r[0]] + f1)[1..] == f1;
          assert Insert(x, [r[0]] + f1) == [r[0]] + Insert(x, f1);
        }
      } else {
        assert Filter(r, p) == f1;
        assert Filter(Insert(x, r), p) == Filter(tail, p);
      }
    }
  }

  /** Sorting commutes with any selection: the sort is stable. */
  lemma {:induction false} FilterSortCommute(s: seq<Timed>, p: Timed -> bool)
    ensures Filter(SortByTime(s), p) == SortByTime(Filter(s, p))
  {
    if s != [] {
      var rest := SortByTime(s[1..]);
      assert SortByTime(s) == Insert(s[0], rest);
      FilterSortCommute(s[1..], p);
      FilterInsert(s[0], rest, p);
      var f1 := Filter(s[1..], p);
      if p(s[0]) {
        assert Filter(s, p) == [s[0]] + f1;
        assert ([s[0]] + f1)[0] == s[0] && ([s[0]] + f1)[1..] == f1;
        assert SortByTime(Filter(s, p)) == Insert(s[0], SortByTime(f1));
      } else {
        assert Filter(s, p) == f1;
      }
    }
  }

  lemma {:induction false} SortSortedIsIdentity(s: seq<Timed>)
    requires Sorted(s)
    ensures SortByTime(s) == s
  {
    if s != [] {
      SortSortedIsIdentity(s[1..]);
      assert s == [s[0]] + s[1..];
    }
  }

  /** Stability: the events sharing one timestamp keep their input order. */
  lemma SortIsStable(s: seq<Timed>, t: int)
    ensures Filter(SortByTime(s), AtTime(t)) == Filter(s, AtTime(t))
  {
    FilterSortCommute(s, AtTime(t));
    var f := Filter(s, AtTime(t));
    forall i | 0 <= i < |f|
      ensures f[i].time == t
    {
      assert f[i] in f;
    }
    SortSortedIsIdentity(f);
  }

  /** The head of the sorted list is the earliest event, ties broken by input order. */
  lemma SortedHeadIsEarliest(s: seq<Timed>)
    requires s != []
    ensures SortByTime(s)[0] in s
    ensures forall x | x in s :: SortByTime(s)[0].time <= x.time
    ensures var first := Filter(s, AtTime(SortByTime(s)[0].time));
              first != [] && SortByTime(s)[0] == first[0]
  {
    var r := SortByTime(s);
    assert r[0] in multiset(r);
    forall x | x in s
      ensures r[0].time <= x.time
    {
      assert x in multiset(r);
      var k :| 0 <= k < |r| && r[k] == x;
      assert k == 0 || r[0].time <= r[k].time;
    }
    var t := r[0].time;
    SortIsStable(s, t);
    assert r == [r[0]] + r[1..];
    assert Filter(r, AtTime(t)) == [r[0]] + Filter(r[1..], AtTime(t));
  }
}
