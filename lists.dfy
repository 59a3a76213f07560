/** The two array queries the editor builds its updates from: `Array.prototype.filter` and
    `Array.prototype.find` / `findIndex`. */
module Lists {
  import opened Dto

  /** `s.filter(p)`: the elements satisfying `p`, in their order. */
  function Filter<T(!new)>(s: seq<T>, p: T -> bool): (r: seq<T>)
    ensures forall x :: x in r <==> x in s && p(x)
    ensures |r| <= |s|
  {
    if s == [] then [] else (if p(s[0]) then [s[0]] else []) + Filter(s[1..], p)
  }

  /** `r` is `s` read at the strictly increasing positions `idx`. */
  ghost predicate SelectedInOrder<T>(r: seq<T>, s: seq<T>, idx: seq<nat>)
  {
    && |idx| == |r|
    && (forall k :: 0 <= k < |idx| ==> idx[k] < |s| && r[k] == s[idx[k]])
    && (forall k, l :: 0 <= k < l < |idx| ==> idx[k] < idx[l])
  }

  /** The positions `Filter` keeps: `Filter(s, p)` is `s` read at them in increasing order, and they are
      exactly the positions whose element satisfies `p`. */
  function FilterIndices<T(!new)>(s: seq<T>, p: T -> bool): (idx: seq<nat>)
    ensures SelectedInOrder(Filter(s, p), s, idx)
    ensures forall j :: 0 <= j < |s| ==> (j in idx <==> p(s[j]))
  {
    if s == [] then []
    else
      var rest := FilterIndices(s[1..], p);
      SelectedInOrderCons(s, Filter(s[1..], p), rest, p(s[0]));
      ShiftMembers(s, rest);
      (if p(s[0]) then [0] else []) + Shift(rest)
  }

  function Shift(idx: seq<nat>): seq<nat>
  {
    seq(|idx|, k requires 0 <= k < |idx| => idx[k] + 1)
  }

  /** Selecting from the tail at `rest` is selecting from the whole at the shifted positions, and the
      head, when kept, goes in front at position 0. */
  lemma SelectedInOrderCons<T>(s: seq<T>, tail: seq<T>, rest: seq<nat>, keep: bool)
    requires s != [] && SelectedInOrder(tail, s[1..], rest)
    ensures SelectedInOrder((if keep then [s[0]] else []) + tail, s, (if keep then [0] else []) + Shift(rest))
  {
    var r := (if keep then [s[0]] else []) + tail;
    var idx := (if keep then [0] else []) + Shift(rest);
    var o := if keep then 1 else 0;
    forall k | 0 <= k < |idx| ensures idx[k] < |s| && r[k] == s[idx[k]] {
      if k >= o {
        assert idx[k] == rest[k - o] + 1 && r[k] == tail[k - o];
      }
    }
    forall k, l | 0 <= k < l < |idx| ensures idx[k] < idx[l] {
      if k >= o {
        assert idx[k] == rest[k - o] + 1 && idx[l] == rest[l - o] + 1;
      }
    }
  }

  /** Position j > 0 is among the shifted positions exactly when j - 1 was among the originals; 0 never is. */
  lemma ShiftMembers<T>(s: seq<T>, rest: seq<nat>)
    ensures forall j :: 1 <= j < |s| ==> (j in Shift(rest) <==> j - 1 in rest)
    ensures 0 !in Shift(rest)
  {
    forall j | 1 <= j < |s| ensures j in Shift(rest) <==> j - 1 in rest {
      if j - 1 in rest {
        var k :| 0 <= k < |rest| && rest[k] == j - 1;
        assert Shift(rest)[k] == j;
      }
    }
  }

  /** Filtering a list that already satisfies the predicate gives it back. */
  lemma {:induction false} FilterOfAll<T(!new)>(s: seq<T>, p: T -> bool)
    requires forall i :: 0 <= i < |s| ==> p(s[i])
    ensures Filter(s, p) == s
  {
    if s != [] {
      FilterOfAll(s[1..], p);
      assert [s[0]] + s[1..] == s;
    }
  }

  /** Two successive filters are one filter by the conjunction. */
  lemma {:induction false} FilterTwice<T(!new)>(s: seq<T>, p: T -> bool, q: T -> bool, both: T -> bool)
    requires forall x :: both(x) == (p(x) && q(x))
    ensures Filter(Filter(s, p), q) == Filter(s, both)
  {
    if s != [] {
      FilterTwice(s[1..], p, q, both);
      var rest := Filter(s[1..], p);
      if p(s[0]) {
        assert Filter(s, p) == [s[0]] + rest;
        assert ([s[0]] + rest)[1..] == rest;
      } else {
        assert Filter(s, p) == rest;
      }
    }
  }

  /** Filtering distributes over concatenation. */
  lemma {:induction false} FilterAppend<T(!new)>(a: seq<T>, b: seq<T>, p: T -> bool)
    ensures Filter(a + b, p) == Filter(a, p) + Filter(b, p)
  {
    if a == [] {
      assert a + b == b;
    } else {
      var head := if p(a[0]) then [a[0]] else [];
      FilterAppend(a[1..], b, p);
      assert (a + b)[1..] == a[1..] + b;
      assert (a + b)[0] == a[0];
      calc {
        Filter(a + b, p);
        head + Filter(a[1..] + b, p);
        head + (Filter(a[1..], p) + Filter(b, p));
        (head + Filter(a[1..], p)) + Filter(b, p);
        Filter(a, p) + Filter(b, p);
      }
    }
  }

  predicate DistinctKeys<T, K(==)>(s: seq<T>, key: T -> K)
  {
    forall i, j :: 0 <= i < j < |s| ==> key(s[i]) != key(s[j])
  }

  /** Filtering never introduces two elements with the same key. */
  lemma {:induction false} FilterKeepsDistinct<T(!new), K>(s: seq<T>, p: T -> bool, key: T -> K)
    requires DistinctKeys(s, key)
    ensures DistinctKeys(Filter(s, p), key)
  {
    if s != [] {
      var tail := s[1..];
      assert DistinctKeys(tail, key) by {
        forall i, j | 0 <= i < j < |tail| ensures key(tail[i]) != key(tail[j]) {
          assert tail[i] == s[i + 1] && tail[j] == s[j + 1];
        }
      }
      FilterKeepsDistinct(tail, p, key);
      var rest := Filter(tail, p);
      if p(s[0]) {
        forall j | 0 <= j < |rest| ensures key(s[0]) != key(rest[j]) {
          assert rest[j] in tail;
          var k :| 0 <= k < |tail| && tail[k] == rest[j];
          assert tail[k] == s[k + 1];
        }
        var r := [s[0]] + rest;
        forall i, j | 0 <= i < j < |r| ensures key(r[i]) != key(r[j]) {
          if i == 0 {
            assert r[j] == rest[j - 1];
          } else {
            assert r[i] == rest[i - 1] && r[j] == rest[j - 1];
          }
        }
      }
    }
  }

  /** `s.findIndex(p)`, with "not found" as `None`: the first position satisfying `p`. */
  function FindIndex<T>(s: seq<T>, p: T -> bool): (r: Option<nat>)
    ensures r.Some? ==> r.value < |s| && p(s[r.value]) && forall j :: 0 <= j < r.value ==> !p(s[j])
    ensures r.None? ==> forall j :: 0 <= j < |s| ==> !p(s[j])
  {
    if s == [] then None
    else if p(s[0]) then Some(0)
    else
      var k := FindIndex(s[1..], p);
      if k.Some? then Some(k.value + 1) else None
  }

  /** `s.find(p)`: the first element satisfying `p`. */
  function Find<T(!new)>(s: seq<T>, p: T -> bool): (r: Option<T>)
    ensures r.Some? ==> r.value in s && p(r.value)
    ensures r.None? <==> forall x :: x in s ==> !p(x)
  {
    var k := FindIndex(s, p);
    if k.Some? then Some(s[k.value]) else None
  }

  /** Appending an element after a list with no match makes that element the one found. */
  lemma FindAfterMisses<T(!new)>(s: seq<T>, x: T, p: T -> bool)
    requires Find(s, p).None? && p(x)
    ensures Find(s + [x], p) == Some(x)
  {
    assert FindIndex(s, p).None?;
    assert (s + [x])[|s|] == x;
    assert forall j :: 0 <= j < |s| ==> (s + [x])[j] == s[j];
  }

  /** A match found in a list is still the one found once more elements follow. */
  lemma {:induction false} FindBeforeAppend<T(!new)>(s: seq<T>, t: seq<T>, p: T -> bool)
    requires Find(s, p).Some?
    ensures Find(s + t, p) == Find(s, p)
  {
    var k := FindIndex(s, p);
    var k2 := FindIndex(s + t, p);
    assert forall j :: 0 <= j < |s| ==> (s + t)[j] == s[j];
    assert k2 == k;
  }
}
