/** The floor list of a building bundle (src/BuildingBundleCreator.tsx). Every edit builds a new bundle;
    a floor handed back by the list is identified by its position, as the source compares objects by
    reference and every floor of the list is a distinct object. */
module BuildingBundle {
  import opened Dto
  import opened Lists

  predicate SortedByNumber(floors: seq<BundleFloorInfo>)
  {
    forall i, j :: 0 <= i < j < |floors| ==> floors[i].number <= floors[j].number
  }

  function NumberIs(n: int): BundleFloorInfo -> bool { (f: BundleFloorInfo) => f.number == n }

  /** `x` placed after every leading floor numbered at most `x.number`. */
  function Insert(x: BundleFloorInfo, floors: seq<BundleFloorInfo>): (r: seq<BundleFloorInfo>)
    ensures multiset(r) == multiset(floors) + multiset{x}
    ensures forall f :: f in r ==> f == x || f in floors
  {
    if floors == [] then [x]
    else if floors[0].number > x.number then [x] + floors
    else
      assert floors == [floors[0]] + floors[1..];
      [floors[0]] + Insert(x, floors[1..])
  }

  /** `Array.prototype.sort` with the comparator `(a, b) => a.number - b.number`, which is stable. */
  function SortByNumber(floors: seq<BundleFloorInfo>): (r: seq<BundleFloorInfo>)
    ensures multiset(r) == multiset(floors)
  {
    if floors == [] then []
    else
      assert floors == floors[..|floors| - 1] + [floors[|floors| - 1]];
      Insert(floors[|floors| - 1], SortByNumber(floors[..|floors| - 1]))
  }

  lemma SortedTail(floors: seq<BundleFloorInfo>)
    requires SortedByNumber(floors) && floors != []
    ensures SortedByNumber(floors[1..])
    ensures forall f :: f in floors ==> floors[0].number <= f.number
  {
    var tail := floors[1..];
    forall i, j | 0 <= i < j < |tail| ensures tail[i].number <= tail[j].number {
      assert tail[i] == floors[i + 1] && tail[j] == floors[j + 1];
    }
    forall f | f in floors ensures floors[0].number <= f.number {
      var m :| 0 <= m < |floors| && floors[m] == f;
    }
  }

  lemma SortedCons(h: BundleFloorInfo, floors: seq<BundleFloorInfo>)
    requires SortedByNumber(floors)
    requires forall f :: f in floors ==> h.number <= f.number
    ensures SortedByNumber([h] + floors)
  {
    var r := [h] + floors;
    forall i, j | 0 <= i < j < |r| ensures r[i].number <= r[j].number {
      assert r[j] == floors[j - 1];
      if i > 0 {
        assert r[i] == floors[i - 1];
      }
    }
  }

  lemma {:induction false} InsertKeepsSorted(x: BundleFloorInfo, floors: seq<BundleFloorInfo>)
    requires SortedByNumber(floors)
    ensures SortedByNumber(Insert(x, floors))
  {
    if floors == [] {
    } else if floors[0].number > x.number {
      SortedTail(floors);
      SortedCons(x, floors);
    } else {
      SortedTail(floors);
      InsertKeepsSorted(x, floors[1..]);
      SortedCons(floors[0], Insert(x, floors[1..]));
    }
  }

  /** The sort orders the floors by number. */
  lemma {:induction false} SortIsSorted(floors: seq<BundleFloorInfo>)
    ensures SortedByNumber(SortByNumber(floors))
  {
    if floors != [] {
      SortIsSorted(floors[..|floors| - 1]);
      InsertKeepsSorted(floors[|floors| - 1], SortByNumber(floors[..|floors| - 1]));
    }
  }

  lemma {:induction false} FilterOfNone(floors: seq<BundleFloorInfo>, p: BundleFloorInfo -> bool)
    requires forall f :: f in floors ==> !p(f)
    ensures Filter(floors, p) == []
  {
    if floors != [] {
      FilterOfNone(floors[1..], p);
    }
  }

  lemma FilterOne(x: BundleFloorInfo, p: BundleFloorInfo -> bool)
    ensures Filter([x], p) == if p(x) then [x] else []
  {
    assert [x][1..] == [];
  }

  lemma FilterCons(x: BundleFloorInfo, floors: seq<BundleFloorInfo>, p: BundleFloorInfo -> bool)
    ensures Filter([x] + floors, p) == (if p(x) then [x] else []) + Filter(floors, p)
  {
    assert ([x] + floors)[1..] == floors;
  }

  lemma InsertInFrontIsStable(x: BundleFloorInfo, floors: seq<BundleFloorInfo>, n: int)
    requires SortedByNumber(floors) && floors != [] && floors[0].number > x.number
    ensures Filter([x] + floors, NumberIs(n)) == Filter(floors, NumberIs(n)) + (if x.number == n then [x] else [])
  {
    FilterCons(x, floors, NumberIs(n));
    if x.number == n {
      SortedTail(floors);
      assert forall f :: f in floors ==> !NumberIs(n)(f);
      FilterOfNone(floors, NumberIs(n));
    }
  }

  lemma AppendAssoc(a: seq<BundleFloorInfo>, b: seq<BundleFloorInfo>, c: seq<BundleFloorInfo>)
    ensures a + (b + c) == (a + b) + c
  {
  }

  /** Inserting into a sorted list puts `x` after the floors of its number already there. */
  lemma {:induction false} InsertIsStable(x: BundleFloorInfo, floors: seq<BundleFloorInfo>, n: int)
    requires SortedByNumber(floors)
    ensures Filter(Insert(x, floors), NumberIs(n)) == Filter(floors, NumberIs(n)) + (if x.number == n then [x] else [])
  {
    if floors == [] {
      FilterOne(x, NumberIs(n));
    } else if floors[0].number > x.number {
      InsertInFrontIsStable(x, floors, n);
    } else {
      var h, tail := floors[0], floors[1..];
      var own := if x.number == n then [x] else [];
      var head := if h.number == n then [h] else [];
      assert [h] + tail == floors;
      assert Insert(x, floors) == [h] + Insert(x, tail);
      SortedTail(floors);
      calc {
        Filter(Insert(x, floors), NumberIs(n));
        Filter([h] + Insert(x, tail), NumberIs(n));
        { FilterCons(h, Insert(x, tail), NumberIs(n)); }
        head + Filter(Insert(x, tail), NumberIs(n));
        { InsertIsStable(x, tail, n); }
        head + (Filter(tail, NumberIs(n)) + own);
        { AppendAssoc(head, Filter(tail, NumberIs(n)), own); }
        (head + Filter(tail, NumberIs(n))) + own;
        { FilterCons(h, tail, NumberIs(n)); }
        Filter(floors, NumberIs(n)) + own;
      }
    }
  }

  /** The sort is stable: for every number, the floors with that number keep their order. */
  lemma {:induction false} SortIsStable(floors: seq<BundleFloorInfo>, n: int)
    ensures Filter(SortByNumber(floors), NumberIs(n)) == Filter(floors, NumberIs(n))
  {
    if floors != [] {
      var init := floors[..|floors| - 1];
      var last := floors[|floors| - 1];
      var own := if last.number == n then [last] else [];
      assert init + [last] == floors;
      calc {
        Filter(SortByNumber(floors), NumberIs(n));
        Filter(Insert(last, SortByNumber(init)), NumberIs(n));
        { SortIsSorted(init); InsertIsStable(last, SortByNumber(init), n); }
        Filter(SortByNumber(init), NumberIs(n)) + own;
        { SortIsStable(init, n); }
        Filter(init, NumberIs(n)) + own;
        { FilterOne(last, NumberIs(n)); }
        Filter(init, NumberIs(n)) + Filter([last], NumberIs(n));
        { FilterAppend(init, [last], NumberIs(n)); }
        Filter(floors, NumberIs(n));
      }
    }
  }

  /** Sorting sorted floors leaves them where they are. */
  lemma {:induction false} SortOfSorted(floors: seq<BundleFloorInfo>)
    requires SortedByNumber(floors)
    ensures SortByNumber(floors) == floors
  {
    if floors != [] {
      var init := floors[..|floors| - 1];
      var last := floors[|floors| - 1];
      assert SortedByNumber(init);
      SortOfSorted(init);
      InsertAtEnd(last, init);
      assert init + [last] == floors;
    }
  }

  lemma {:induction false} InsertAtEnd(x: BundleFloorInfo, floors: seq<BundleFloorInfo>)
    requires forall i :: 0 <= i < |floors| ==> floors[i].number <= x.number
    ensures Insert(x, floors) == floors + [x]
  {
    if floors != [] {
      InsertAtEnd(x, floors[1..]);
      assert [floors[0]] + (floors[1..] + [x]) == floors + [x];
    }
  }

  /** The floor a loaded map becomes: numbered after the floors already there, the ground floor of an
      empty building. */
  function NewFloor(bundle: BundleBuildingInfo, mapData: MapData): (r: BundleFloorInfo)
    ensures r.id == mapData.id && r.name == mapData.name && r.version == mapData.version
    ensures r.number == |bundle.floors| && (r.isGroundFloor <==> bundle.floors == [])
  {
    BundleFloorInfo(mapData.id, mapData.name, |bundle.floors|, |bundle.floors| == 0, mapData.version)
  }

  function FloorIdIs(id: string): BundleFloorInfo -> bool { (f: BundleFloorInfo) => f.id == id }
  function FloorIdIsNot(id: string): BundleFloorInfo -> bool { (f: BundleFloorInfo) => f.id != id }

  /** The zip handler: a bundle without a map, or whose map id is already a floor, is left alone;
      otherwise the new floor is appended and the floors sorted by number. */
  function AddFloor(bundle: BundleBuildingInfo, jsonData: Option<MapData>): (r: BundleBuildingInfo)
    ensures jsonData.None? ==> r == bundle
    ensures jsonData.Some? && (exists f :: f in bundle.floors && f.id == jsonData.value.id) ==> r == bundle
    ensures r == bundle.(floors := r.floors)
  {
    if jsonData.None? then bundle
    else
      var mapData := jsonData.value;
      if Find(bundle.floors, FloorIdIs(mapData.id)).Some? then bundle
      else bundle.(floors := SortByNumber(bundle.floors + [NewFloor(bundle, mapData)]))
  }

  /** An accepted floor: the floors after the add are sorted, are the old floors plus the new one, and
      keep the relative order of equally numbered floors. */
  lemma AddFloorSortsAndKeeps(bundle: BundleBuildingInfo, mapData: MapData, n: int)
    requires forall f :: f in bundle.floors ==> f.id != mapData.id
    ensures var r := AddFloor(bundle, Some(mapData));
      && SortedByNumber(r.floors)
      && multiset(r.floors) == multiset(bundle.floors) + multiset{NewFloor(bundle, mapData)}
      && Filter(r.floors, NumberIs(n)) == Filter(bundle.floors + [NewFloor(bundle, mapData)], NumberIs(n))
  {
    var appended := bundle.floors + [NewFloor(bundle, mapData)];
    SortIsSorted(appended);
    SortIsStable(appended, n);
  }

  /** handleBlur: the floors sorted by number. */
  function HandleBlur(bundle: BundleBuildingInfo): (r: BundleBuildingInfo)
    ensures multiset(r.floors) == multiset(bundle.floors)
    ensures r == bundle.(floors := r.floors)
  {
    bundle.(floors := SortByNumber(bundle.floors))
  }

  /** After a blur the floors are sorted and equally numbered floors kept in order; a second blur changes
      nothing. */
  lemma HandleBlurSorts(bundle: BundleBuildingInfo, n: int)
    ensures SortedByNumber(HandleBlur(bundle).floors)
    ensures Filter(HandleBlur(bundle).floors, NumberIs(n)) == Filter(bundle.floors, NumberIs(n))
    ensures HandleBlur(HandleBlur(bundle)) == HandleBlur(bundle)
  {
    SortIsSorted(bundle.floors);
    SortIsStable(bundle.floors, n);
    SortOfSorted(SortByNumber(bundle.floors));
  }

  /** handleGroundFloorChange for the floor at position `k`: it alone becomes the ground floor. */
  function HandleGroundFloorChange(bundle: BundleBuildingInfo, k: nat): (r: BundleBuildingInfo)
    requires k < |bundle.floors|
    ensures |r.floors| == |bundle.floors|
    ensures forall i :: 0 <= i < |r.floors| ==> (r.floors[i].isGroundFloor <==> i == k)
    ensures forall i :: 0 <= i < |r.floors| ==> r.floors[i] == bundle.floors[i].(isGroundFloor := r.floors[i].isGroundFloor)
    ensures r == bundle.(floors := r.floors)
  {
    bundle.(floors := seq(|bundle.floors|, i requires 0 <= i < |bundle.floors| => bundle.floors[i].(isGroundFloor := i == k)))
  }

  /** updateFloorInfo for the floor at position `k`. */
  function UpdateFloorInfo(bundle: BundleBuildingInfo, k: nat, newFloorInfo: BundleFloorInfo): (r: BundleBuildingInfo)
    requires k < |bundle.floors|
    ensures |r.floors| == |bundle.floors| && r.floors[k] == newFloorInfo
    ensures forall i :: 0 <= i < |r.floors| && i != k ==> r.floors[i] == bundle.floors[i]
    ensures r == bundle.(floors := r.floors)
  {
    bundle.(floors := bundle.floors[k := newFloorInfo])
  }

  /** removeFloor: the floors with another id stay, in their order: the new list reads the old one at
      increasing positions, which are exactly those of the floors with another id. */
  function RemoveFloor(bundle: BundleBuildingInfo, id: string): (r: BundleBuildingInfo)
    ensures forall f :: f in r.floors <==> f in bundle.floors && f.id != id
    ensures |r.floors| <= |bundle.floors|
    ensures exists idx :: SelectedInOrder(r.floors, bundle.floors, idx)
              && forall j :: 0 <= j < |bundle.floors| ==> (j in idx <==> bundle.floors[j].id != id)
    ensures r == bundle.(floors := r.floors)
  {
    var kept := Filter(bundle.floors, FloorIdIsNot(id));
    assert SelectedInOrder(kept, bundle.floors, FilterIndices(bundle.floors, FloorIdIsNot(id)));
    bundle.(floors := kept)
  }

  /** Removing a floor id no floor has changes nothing; removing one twice is removing it once. */
  lemma RemoveFloorProperties(bundle: BundleBuildingInfo, id: string)
    ensures (forall i :: 0 <= i < |bundle.floors| ==> bundle.floors[i].id != id) ==> RemoveFloor(bundle, id) == bundle
    ensures RemoveFloor(RemoveFloor(bundle, id), id) == RemoveFloor(bundle, id)
  {
    if forall i :: 0 <= i < |bundle.floors| ==> bundle.floors[i].id != id {
      FilterOfAll(bundle.floors, FloorIdIsNot(id));
    }
    var once := RemoveFloor(bundle, id).floors;
    assert forall i :: 0 <= i < |once| ==> once[i] in once;
    FilterOfAll(once, FloorIdIsNot(id));
  }
}
