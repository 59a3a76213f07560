/** The campus bundle (src/CampusBundleCreator.tsx): its list of buildings and the name it is
    downloaded under. Letters are treated as ASCII. */
module CampusBundle {
  import opened Dto
  import opened Lists

  datatype BundleCampusInfo = BundleCampusInfo(id: string, name: string, buildings: seq<BundleBuildingInfo>, version: int)

  /** A campus file as parsed; its `version` may be missing. */
  datatype ParsedCampus = ParsedCampus(id: string, name: string, buildings: seq<BundleBuildingInfo>, version: Option<int>)

  /** The bundle the creator starts with. */
  function InitialBundle(freshId: string): (r: BundleCampusInfo)
    ensures r.id == freshId && r.name == "" && r.buildings == [] && r.version == 1
  {
    BundleCampusInfo(freshId, "", [], 1)
  }

  /** The file handler: `version ?? 1`. */
  function LoadCampusBundle(parsed: ParsedCampus): (r: BundleCampusInfo)
    ensures parsed.version.None? ==> r.version == 1
    ensures parsed.version.Some? ==> r.version == parsed.version.value
    ensures r.id == parsed.id && r.name == parsed.name && r.buildings == parsed.buildings
  {
    BundleCampusInfo(parsed.id, parsed.name, parsed.buildings, if parsed.version.Some? then parsed.version.value else 1)
  }

  /** addNewBlankBuilding */
  function AddNewBlankBuilding(bundle: BundleCampusInfo, freshId: string): (r: BundleCampusInfo)
    ensures |r.buildings| == |bundle.buildings| + 1 && r.buildings[..|bundle.buildings|] == bundle.buildings
    ensures r.buildings[|bundle.buildings|] == BundleBuildingInfo(freshId, "", [])
    ensures r == bundle.(buildings := r.buildings)
  {
    bundle.(buildings := bundle.buildings + [BundleBuildingInfo(freshId, "", [])])
  }

  /** updateBuildingInfo for the building at position `k`. */
  function UpdateBuildingInfo(bundle: BundleCampusInfo, k: nat, newPartInfo: BundleBuildingInfo): (r: BundleCampusInfo)
    requires k < |bundle.buildings|
    ensures |r.buildings| == |bundle.buildings| && r.buildings[k] == newPartInfo
    ensures forall i :: 0 <= i < |r.buildings| && i != k ==> r.buildings[i] == bundle.buildings[i]
    ensures r == bundle.(buildings := r.buildings)
  {
    bundle.(buildings := bundle.buildings[k := newPartInfo])
  }

  function BuildingIdIsNot(id: string): BundleBuildingInfo -> bool { (b: BundleBuildingInfo) => b.id != id }

  /** removeBuilding: the buildings with another id stay, in their order: the new list reads the old one
      at increasing positions, which are exactly those of the buildings with another id. */
  function RemoveBuilding(bundle: BundleCampusInfo, id: string): (r: BundleCampusInfo)
    ensures forall b :: b in r.buildings <==> b in bundle.buildings && b.id != id
    ensures |r.buildings| <= |bundle.buildings|
    ensures exists idx :: SelectedInOrder(r.buildings, bundle.buildings, idx)
              && forall j :: 0 <= j < |bundle.buildings| ==> (j in idx <==> bundle.buildings[j].id != id)
    ensures r == bundle.(buildings := r.buildings)
  {
    var kept := Filter(bundle.buildings, BuildingIdIsNot(id));
    assert SelectedInOrder(kept, bundle.buildings, FilterIndices(bundle.buildings, BuildingIdIsNot(id)));
    bundle.(buildings := kept)
  }

  /** A blank building added and then removed by its id leaves the list as it was, when no other
      building has that id. */
  lemma RemoveUndoesAdd(bundle: BundleCampusInfo, freshId: string)
    requires forall i :: 0 <= i < |bundle.buildings| ==> bundle.buildings[i].id != freshId
    ensures RemoveBuilding(AddNewBlankBuilding(bundle, freshId), freshId) == bundle
  {
    var blank := BundleBuildingInfo(freshId, "", []);
    FilterAppend(bundle.buildings, [blank], BuildingIdIsNot(freshId));
    FilterOfAll(bundle.buildings, BuildingIdIsNot(freshId));
    assert Filter([blank], BuildingIdIsNot(freshId)) == [] by {
      assert [blank][1..] == [];
    }
  }

  /** `toLowerCase` on ASCII letters. */
  function LowerAscii(c: char): char
  {
    if 'A' <= c <= 'Z' then (c as int + 32) as char else c
  }

  predicate Allowed(c: char)
  {
    'a' <= c <= 'z' || '0' <= c <= '9'
  }

  function AllowedChar(): char -> bool { (c: char) => Allowed(c) }

  /** `name.toLowerCase().replace(/[^a-z0-9]/g, '')` */
  function Sanitise(name: string): (r: string)
    ensures forall i :: 0 <= i < |r| ==> Allowed(r[i])
  {
    var r := Filter(seq(|name|, i requires 0 <= i < |name| => LowerAscii(name[i])), AllowedChar());
    assert forall i :: 0 <= i < |r| ==> r[i] in r;
    r
  }

  /** Sanitising a sanitised name changes nothing. */
  lemma SanitiseIdempotent(name: string)
    ensures Sanitise(Sanitise(name)) == Sanitise(name)
  {
    var s := Sanitise(name);
    var lowered := seq(|s|, i requires 0 <= i < |s| => LowerAscii(s[i]));
    assert lowered == s;
    FilterOfAll(s, AllowedChar());
  }

  /** Every letter and digit of the name survives, an upper-case letter as its lower-case form, and
      nothing else does. */
  lemma SanitiseKeepsLettersAndDigits(name: string)
    ensures forall c :: c in Sanitise(name) <==> Allowed(c) && exists i :: 0 <= i < |name| && LowerAscii(name[i]) == c
  {
    var lowered := seq(|name|, i requires 0 <= i < |name| => LowerAscii(name[i]));
    forall c ensures c in lowered <==> exists i :: 0 <= i < |name| && LowerAscii(name[i]) == c {
      if c in lowered {
        var i :| 0 <= i < |lowered| && lowered[i] == c;
      }
      if exists i :: 0 <= i < |name| && LowerAscii(name[i]) == c {
        var i :| 0 <= i < |name| && LowerAscii(name[i]) == c;
        assert lowered[i] == c;
      }
    }
  }

  /** The download name: the sanitised campus name, an underscore, the campus id. */
  function DownloadName(bundle: BundleCampusInfo): (r: string)
    ensures |r| == |Sanitise(bundle.name)| + 1 + |bundle.id|
  {
    Sanitise(bundle.name) + "_" + bundle.id
  }

  /** The first underscore of the download name ends the name part, and everything after it is the id. */
  lemma DownloadNameSplitsAtFirstUnderscore(bundle: BundleCampusInfo)
    ensures var d := DownloadName(bundle);
      var k := |Sanitise(bundle.name)|;
      && d[k] == '_' && d[..k] == Sanitise(bundle.name) && d[k + 1..] == bundle.id
      && forall i :: 0 <= i < k ==> d[i] != '_'
  {
    var d := DownloadName(bundle);
    var k := |Sanitise(bundle.name)|;
    assert forall i :: 0 <= i < k ==> d[i] == Sanitise(bundle.name)[i];
    assert d[k + 1..] == bundle.id;
  }
}
