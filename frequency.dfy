/** `mostFrequentArrayElement` of src/utils.ts: count every element in a map, then walk the map in
    insertion order (the iteration order of a JavaScript `Map`) keeping the first element whose
    count is strictly larger than the best so far. Elements are compared by `==`, which stands for
    the `SameValueZero` key equality of the map. */
module Frequency {
  import opened Dto

  /** The number of occurrences of `x` in `s`. */
  function Count<T(==)>(s: seq<T>, x: T): nat
  {
    multiset(s)[x]
  }

  predicate Distinct<T(==)>(s: seq<T>)
  {
    forall i, j :: 0 <= i < j < |s| ==> s[i] != s[j]
  }

  /** The distinct elements of `s` in order of first occurrence: the keys of the frequency map. */
  function Keys<T(==)>(s: seq<T>): (r: seq<T>)
    ensures forall i :: 0 <= i < |r| ==> r[i] in s
    ensures forall i :: 0 <= i < |s| ==> s[i] in r
    ensures Distinct(r)
  {
    if s == [] then []
    else
      var k := Keys(s[..|s| - 1]);
      var last := s[|s| - 1];
      assert s == s[..|s| - 1] + [last];
      if last in k then k else k + [last]
  }

  /** The `maxItem`/`maxCount` pair of the selection loop. */
  datatype Pick<T> = Pick(item: Option<T>, count: nat)

  /** The selection loop over distinct `keys`, with counts taken in `s`: the best item is an element of
      maximal count, and every key before it has a strictly smaller count. */
  function Best<T(==)>(keys: seq<T>, s: seq<T>): (r: Pick<T>)
    requires Distinct(keys)
    ensures r.item.Some? ==> r.item.value in keys && r.count == Count(s, r.item.value)
    ensures r.item.None? ==> r.count == 0
    ensures forall j :: 0 <= j < |keys| ==> Count(s, keys[j]) <= r.count
    ensures r.item.Some? ==>
              forall i, j :: 0 <= i < j < |keys| && keys[j] == r.item.value ==> Count(s, keys[i]) < r.count
  {
    if keys == [] then Pick(None, 0)
    else
      var ks := keys[..|keys| - 1];
      var k := keys[|keys| - 1];
      assert keys == ks + [k];
      var prev := Best(ks, s);
      if Count(s, k) > prev.count then Pick(Some(k), Count(s, k)) else prev
  }

  /** The value `mostFrequentArrayElement` returns; `None` is the source's `null`. */
  function MostFrequentOf<T(==)>(s: seq<T>): Option<T>
  {
    Best(Keys(s), s).item
  }

  /** `keys` and `frequency` are the frequency map of the first `n` elements of `arr`. */
  predicate Tallied<T(==)>(arr: seq<T>, n: nat, keys: seq<T>, frequency: map<T, nat>)
    requires n <= |arr|
  {
    && keys == Keys(arr[..n])
    && (forall x :: x in keys ==> x in frequency)
    && (forall x :: x in frequency ==> x in keys && frequency[x] == Count(arr[..n], x))
  }

  /** The first loop of `mostFrequentArrayElement`: the frequency map, with its keys in insertion order. */
  method CountFrequencies<T(==)>(arr: seq<T>) returns (keys: seq<T>, frequency: map<T, nat>)
    ensures keys == Keys(arr)
    ensures forall x :: x in frequency <==> x in keys
    ensures forall x :: x in frequency ==> frequency[x] == Count(arr, x)
  {
    keys := [];
    frequency := map[];
    for i := 0 to |arr|
      invariant Tallied(arr, i, keys, frequency)
    {
      var item := arr[i];
      ghost var keys0, frequency0 := keys, frequency;
      if item in frequency {
        frequency := frequency[item := frequency[item] + 1];
      } else {
        frequency := frequency[item := 1];
        keys := keys + [item];
      }
      TallyStep(arr, i, keys0, frequency0, keys, frequency);
    }
    PrefixAll(arr);
  }

  /** One turn of the counting loop keeps the frequency map exact. */
  lemma TallyStep<T>(arr: seq<T>, i: nat, keys: seq<T>, frequency: map<T, nat>,
                     keys': seq<T>, frequency': map<T, nat>)
    requires i < |arr| && Tallied(arr, i, keys, frequency)
    requires arr[i] in frequency ==> keys' == keys && frequency' == frequency[arr[i] := frequency[arr[i]] + 1]
    requires arr[i] !in frequency ==> keys' == keys + [arr[i]] && frequency' == frequency[arr[i] := 1]
    ensures Tallied(arr, i + 1, keys', frequency')
  {
    KeysSnoc(arr, i);
    if arr[i] in frequency {
      TallySeen(arr, i, keys, frequency);
    } else {
      TallyNew(arr, i, keys, frequency);
    }
  }

  /** An element already counted: its count goes up, the keys stay. */
  lemma TallySeen<T>(arr: seq<T>, i: nat, keys: seq<T>, frequency: map<T, nat>)
    requires i < |arr| && Tallied(arr, i, keys, frequency) && arr[i] in frequency
    requires Keys(arr[..i + 1]) == keys
    requires forall x :: Count(arr[..i + 1], x) == Count(arr[..i], x) + (if x == arr[i] then 1 else 0)
    ensures Tallied(arr, i + 1, keys, frequency[arr[i] := frequency[arr[i]] + 1])
  {
    var frequency' := frequency[arr[i] := frequency[arr[i]] + 1];
    forall x | x in frequency'
      ensures x in keys && frequency'[x] == Count(arr[..i + 1], x)
    {
      assert Count(arr[..i + 1], x) == Count(arr[..i], x) + (if x == arr[i] then 1 else 0);
    }
  }

  /** A new element: it is counted once and joins the keys at the end. */
  lemma TallyNew<T>(arr: seq<T>, i: nat, keys: seq<T>, frequency: map<T, nat>)
    requires i < |arr| && Tallied(arr, i, keys, frequency) && arr[i] !in frequency
    requires Keys(arr[..i + 1]) == keys + [arr[i]]
    requires forall x :: Count(arr[..i + 1], x) == Count(arr[..i], x) + (if x == arr[i] then 1 else 0)
    ensures Tallied(arr, i + 1, keys + [arr[i]], frequency[arr[i] := 1])
  {
    var item := arr[i];
    var keys', frequency' := keys + [item], frequency[item := 1];
    forall x | x in keys'
      ensures x in frequency'
    {
      if x != item {
        assert x in keys;
      }
    }
    forall x | x in frequency'
      ensures x in keys' && frequency'[x] == Count(arr[..i + 1], x)
    {
      assert Count(arr[..i + 1], x) == Count(arr[..i], x) + (if x == item then 1 else 0);
      if x != item {
        assert x in frequency;
      } else {
        assert Count(arr[..i], x) == 0;
      }
    }
  }

  lemma PrefixAll<T>(s: seq<T>)
    ensures s[..|s|] == s
    ensures Keys(s[..|s|]) == Keys(s)
    ensures forall x :: Count(s[..|s|], x) == Count(s, x)
  {
  }

  method MostFrequentArrayElement<T(==)>(arr: seq<T>) returns (r: Option<T>)
    ensures r == MostFrequentOf(arr)
  {
    var keys, frequency := CountFrequencies(arr);
    // second loop: the first entry of strictly largest count
    var maxItem: Option<T> := None;
    var maxCount := 0;
    for k := 0 to |keys|
      invariant Distinct(keys[..k])
      invariant Pick(maxItem, maxCount) == Best(keys[..k], arr)
    {
      assert keys[..k + 1][..k] == keys[..k];
      assert Distinct(keys[..k + 1]);
      var item := keys[k];
      var count := frequency[item];
      if count > maxCount {
        maxCount := count;
        maxItem := Some(item);
      }
    }
    assert keys[..|keys|] == keys;
    r := maxItem;
  }

  /** One more element: its count goes up by one, and it joins the keys if it is new. */
  lemma KeysSnoc<T>(s: seq<T>, i: nat)
    requires i < |s|
    ensures Keys(s[..i + 1]) == if s[i] in Keys(s[..i]) then Keys(s[..i]) else Keys(s[..i]) + [s[i]]
    ensures forall x :: Count(s[..i + 1], x) == Count(s[..i], x) + (if x == s[i] then 1 else 0)
  {
    assert s[..i + 1][..i] == s[..i];
    assert s[..i + 1] == s[..i] + [s[i]];
  }

  /** The keys of a prefix are a prefix of the keys. */
  lemma {:induction false} KeysPrefix<T>(s: seq<T>, n: nat)
    requires n <= |s|
    ensures Keys(s[..n]) <= Keys(s)
    decreases |s| - n
  {
    if n < |s| {
      KeysPrefix(s, n + 1);
      assert s[..n + 1][..n] == s[..n];
    } else {
      assert s[..n] == s;
    }
  }

  /** An empty input gives `null`, any other input an element of it. */
  lemma MostFrequentIsNoneIffEmpty<T>(s: seq<T>)
    ensures MostFrequentOf(s).None? <==> s == []
    ensures MostFrequentOf(s).Some? ==> MostFrequentOf(s).value in s
  {
    if s != [] {
      var b := Best(Keys(s), s);
      assert s[0] in Keys(s);
      assert Count(s, s[0]) > 0;
    }
  }

  /** The result occurs at least as often as any element of the input. */
  lemma MostFrequentIsMaximal<T>(s: seq<T>, x: T)
    requires x in s
    ensures MostFrequentOf(s).Some?
    ensures Count(s, x) <= Count(s, MostFrequentOf(s).value)
  {
    MostFrequentIsNoneIffEmpty(s);
    assert x in Keys(s);
  }

  /** Ties go to the element that occurs first: the result has already occurred by the first time any
      other element of the same count occurs. */
  lemma MostFrequentPrefersEarliest<T>(s: seq<T>, i: nat)
    requires i < |s|
    requires MostFrequentOf(s).Some? && Count(s, s[i]) == Count(s, MostFrequentOf(s).value)
    ensures MostFrequentOf(s).value in s[..i + 1]
  {
    var keys := Keys(s);
    var m := MostFrequentOf(s).value;
    var pre := Keys(s[..i + 1]);
    KeysPrefix(s, i + 1);
    assert s[i] in s[..i + 1];
    var jj :| 0 <= jj < |pre| && pre[jj] == s[i];
    assert keys[jj] == s[i];
    var q :| 0 <= q < |keys| && keys[q] == m;
    assert q < |pre|;
    assert keys[q] == pre[q];
    assert m in pre;
  }
}
