/** The floor-linking session of src/MapContainer.tsx, with the editor state it reads and writes.
    Two maps are linked by alternating between their snapshots: a floor intersection picked on the
    first map (step 0) is recorded, the second map is shown, a floor intersection picked there (step 1)
    gets a target naming the first one, the first map is shown again, and reloading it (step 2) adds
    the reciprocal target and starts over.

    A file of a development bundle is represented by what it holds once read: `map.json` by its map
    (every map the editor writes was loaded, and loading what was written gives the same map back, see
    MapLoading.ReloadIsIdentity), `settings.json` by its settings and `vector.svg` by its text. A bundle's
    SVG entry is the file record itself, so a snapshot's SVG carries the name "vector.svg" whatever the
    loaded file was called. */
module FloorLinkingSession {
  import opened Dto
  import opened Lists

  datatype SvgFile = SvgFile(name: string, text: string)

  datatype FileData = MapJson(mapData: MapData) | SettingsJson(settings: EditorSettings) | SvgText(text: string)

  datatype DataFile = DataFile(name: string, data: FileData)

  /** LoadedData: the files of a bundle, each possibly missing. */
  datatype LoadedData = LoadedData(svgMap: Option<SvgFile>, jsonData: Option<MapData>, settings: Option<EditorSettings>)

  datatype FloorLinkingContext = FloorLinkingContext(
    primaryData: LoadedData, primaryMapId: string,
    secondaryData: LoadedData, secondaryMapId: string,
    primaryFloorIntersection: Option<SelectedFloorLinkingIntersection>,
    secondaryFloorIntersection: Option<SelectedFloorLinkingIntersection>,
    step: nat)

  /** The component state the session touches. */
  datatype EditorState = EditorState(mapData: Option<MapData>, loadedData: Option<LoadedData>, settings: EditorSettings,
                                     mapMode: MapMode, floorLinkingContext: Option<FloorLinkingContext>)

  /** The state of a freshly mounted editor. */
  function InitialState(): (r: EditorState)
    ensures r.settings == EditorSettings(300, 2) && r.mapMode == RoomMode
    ensures r.mapData.None? && r.loadedData.None? && r.floorLinkingContext.None?
  {
    EditorState(None, None, EditorSettings(300, 2), RoomMode, None)
  }

  // ---------------------------------------------------------------------------------------------
  // Snapshots

  /** zipBasicBundle: nothing without a map or an SVG; otherwise the map (or the override), the settings
      (those of the bundle when overriding a map, else the editor's) and, on request, the SVG. */
  function ZipBasicBundle(s: EditorState, includeSvg: bool, loaded: Option<LoadedData>, overrideMapData: Option<MapData>)
    : (r: seq<DataFile>)
    ensures s.mapData.None? || loaded.None? || loaded.value.svgMap.None? <==> r == []
    ensures r != [] ==> |r| == (if includeSvg then 3 else 2) && r[0].name == "map.json" && r[1].name == "settings.json"
    ensures r != [] && includeSvg ==> r[2].name == "vector.svg"
  {
    if s.mapData.None? || loaded.None? || loaded.value.svgMap.None? then []
    else
      var json := DataFile("map.json", MapJson(Coalesce(overrideMapData, s.mapData).value));
      var settingFile := DataFile("settings.json", SettingsJson(
                           if overrideMapData.Some? && loaded.value.settings.Some? then loaded.value.settings.value else s.settings));
      var svgFile := DataFile("vector.svg", SvgText(loaded.value.svgMap.value.text));
      [json, settingFile] + (if includeSvg then [svgFile] else [])
  }

  /** regenerateLoadedMapData: the bundle rebuilt from the editor, read back by position. */
  function RegenerateLoadedMapData(s: EditorState, overrideMapData: Option<MapData>): LoadedData
  {
    var currentData := ZipBasicBundle(s, true, s.loadedData, overrideMapData);
    LoadedData(if |currentData| > 2 && currentData[2].data.SvgText? then Some(SvgFile(currentData[2].name, currentData[2].data.text)) else None,
               if |currentData| > 0 && currentData[0].data.MapJson? then Some(currentData[0].data.mapData) else None,
               if |currentData| > 1 && currentData[1].data.SettingsJson? then Some(currentData[1].data.settings) else None)
  }

  /** What a snapshot holds: with a map and an SVG loaded, the override map (or the current one), the
      loaded SVG's text under the name "vector.svg", and the settings; otherwise nothing. */
  lemma RegeneratedSnapshot(s: EditorState, overrideMapData: Option<MapData>)
    ensures var d := RegenerateLoadedMapData(s, overrideMapData);
      if s.mapData.Some? && s.loadedData.Some? && s.loadedData.value.svgMap.Some? then
        && d.svgMap == Some(SvgFile("vector.svg", s.loadedData.value.svgMap.value.text))
        && d.jsonData == Some(Coalesce(overrideMapData, s.mapData).value)
        && d.settings == Some(if overrideMapData.Some? && s.loadedData.value.settings.Some?
                              then s.loadedData.value.settings.value else s.settings)
      else d == LoadedData(None, None, None)
  {
  }

  /** The id of the map a bundle holds, or "" without one. */
  function MapIdOf(d: LoadedData): string
  {
    if d.jsonData.Some? then d.jsonData.value.id else ""
  }

  // ---------------------------------------------------------------------------------------------
  // Transitions

  /** Entering the mode once the other bundle is read (lines 136-151): the current map becomes the
      primary snapshot, the other bundle the secondary one, at step 0 with nothing selected. */
  function StartFloorLinking(s: EditorState, otherLoadedData: LoadedData): (r: EditorState)
    ensures r.mapMode == FloorLinking && r.floorLinkingContext.Some?
    ensures var c := r.floorLinkingContext.value;
      && c.step == 0 && c.primaryFloorIntersection.None? && c.secondaryFloorIntersection.None?
      && c.primaryData == RegenerateLoadedMapData(s, None) && c.secondaryData == otherLoadedData
      && c.primaryMapId == MapIdOf(c.primaryData) && c.secondaryMapId == MapIdOf(otherLoadedData)
    ensures r == s.(mapMode := r.mapMode, floorLinkingContext := r.floorLinkingContext)
  {
    var myLoadedData := RegenerateLoadedMapData(s, None);
    s.(floorLinkingContext := Some(FloorLinkingContext(myLoadedData, MapIdOf(myLoadedData), otherLoadedData,
                                                       MapIdOf(otherLoadedData), None, None, 0)),
       mapMode := FloorLinking)
  }

  /** switchFloorLinkingMapData: the snapshot of `overrideMapData` goes to the slot of the step's parity,
      a new selection replaces the old one, and the step advances. */
  function SwitchSnapshot(s: EditorState, overrideMapData: MapData,
                                     newPrimaryIntersection: Option<SelectedFloorLinkingIntersection>,
                                     newSecondaryIntersection: Option<SelectedFloorLinkingIntersection>): EditorState
  {
    if s.floorLinkingContext.None? then s
    else
      var c := s.floorLinkingContext.value;
      var currentData := RegenerateLoadedMapData(s, Some(overrideMapData));
      var slotted := if c.step % 2 == 0 then c.(primaryData := currentData) else c.(secondaryData := currentData);
      s.(floorLinkingContext := Some(slotted.(
           primaryFloorIntersection := Coalesce(newPrimaryIntersection, c.primaryFloorIntersection),
           secondaryFloorIntersection := Coalesce(newSecondaryIntersection, c.secondaryFloorIntersection),
           step := c.step + 1)))
  }

  /** An even step fills the primary slot and an odd one the secondary slot; the other slot, the map ids
      and the rest of the editor stay. */
  lemma SwitchFillsSlotOfParity(s: EditorState, overrideMapData: MapData,
                                newPrimaryIntersection: Option<SelectedFloorLinkingIntersection>,
                                newSecondaryIntersection: Option<SelectedFloorLinkingIntersection>)
    requires s.floorLinkingContext.Some?
    ensures var r := SwitchSnapshot(s, overrideMapData, newPrimaryIntersection, newSecondaryIntersection);
      var c := s.floorLinkingContext.value;
      var d := r.floorLinkingContext.value;
      && r.floorLinkingContext.Some?
      && d.step == c.step + 1
      && (c.step % 2 == 0 ==> d.primaryData == RegenerateLoadedMapData(s, Some(overrideMapData)) && d.secondaryData == c.secondaryData)
      && (c.step % 2 == 1 ==> d.secondaryData == RegenerateLoadedMapData(s, Some(overrideMapData)) && d.primaryData == c.primaryData)
      && (newPrimaryIntersection.None? ==> d.primaryFloorIntersection == c.primaryFloorIntersection)
      && (newSecondaryIntersection.None? ==> d.secondaryFloorIntersection == c.secondaryFloorIntersection)
      && (newPrimaryIntersection.Some? ==> d.primaryFloorIntersection == newPrimaryIntersection)
      && (newSecondaryIntersection.Some? ==> d.secondaryFloorIntersection == newSecondaryIntersection)
      && d.primaryMapId == c.primaryMapId && d.secondaryMapId == c.secondaryMapId
      && r == s.(floorLinkingContext := r.floorLinkingContext)
  {
  }

  function FloorLinkIdIs(id: string): FloorIntersection -> bool { (x: FloorIntersection) => x.id == id }

  /** The floor intersections of `m` with id `id` gain the target `t` at the end; nothing else changes. */
  function AddTarget(m: MapData, id: string, t: FloorIntersectionTarget): (r: MapData)
    ensures |r.floorIntersections| == |m.floorIntersections|
    ensures forall i :: 0 <= i < |m.floorIntersections| ==>
              r.floorIntersections[i] == m.floorIntersections[i].(targets := r.floorIntersections[i].targets)
    ensures forall i :: 0 <= i < |m.floorIntersections| ==>
              r.floorIntersections[i].targets == if m.floorIntersections[i].id == id then m.floorIntersections[i].targets + [t]
                                                 else m.floorIntersections[i].targets
    ensures r == m.(floorIntersections := r.floorIntersections)
  {
    var items := m.floorIntersections;
    m.(floorIntersections := seq(|items|, i requires 0 <= i < |items| =>
                                   if items[i].id == id then items[i].(targets := items[i].targets + [t]) else items[i]))
  }

  /** A target added to an intersection the map does not have changes nothing. */
  lemma AddTargetToUnknownIntersection(m: MapData, id: string, t: FloorIntersectionTarget)
    requires Find(m.floorIntersections, FloorLinkIdIs(id)).None?
    ensures AddTarget(m, id, t) == m
  {
    var r := AddTarget(m, id, t);
    forall i | 0 <= i < |m.floorIntersections| ensures r.floorIntersections[i] == m.floorIntersections[i] {
      assert m.floorIntersections[i] in m.floorIntersections;
    }
  }

  /** The selection a click on floor intersection `x` of map `m` records. */
  function Selection(m: MapData, x: FloorIntersection): SelectedFloorLinkingIntersection
  {
    SelectedFloorLinkingIntersection(x.id, m.id, x.originRoomId)
  }

  /** floorLinkingSelectionListener, for a click on the shape with id `clicked` (None: on no shape). */
  function FloorLinkingSelection(s: EditorState, clicked: Option<string>): EditorState
  {
    if s.mapData.None? || s.floorLinkingContext.None? || clicked.None? then s
    else
      var m := s.mapData.value;
      var c := s.floorLinkingContext.value;
      var floorIntersection := Find(m.floorIntersections, FloorLinkIdIs(clicked.value));
      if floorIntersection.None? then s
      else
        var selected := Selection(m, floorIntersection.value);
        if c.step == 0 then
          SwitchSnapshot(s, m, Some(selected), None)
        else if c.step == 1 then
          if c.primaryFloorIntersection.None? then s
          else
            var primary := c.primaryFloorIntersection.value;
            var newMapData := AddTarget(m, floorIntersection.value.id, FloorIntersectionTarget(primary.mapId, primary.id));
            SwitchSnapshot(s, newMapData, None, Some(selected))
        else s
  }

  /** At step 0 a pick records the picked intersection as the primary selection and snapshots the map
      unchanged into the primary slot. */
  lemma PickAtStepZero(s: EditorState, clicked: string)
    requires s.mapData.Some? && s.floorLinkingContext.Some? && s.floorLinkingContext.value.step == 0
    requires Find(s.mapData.value.floorIntersections, FloorLinkIdIs(clicked)).Some?
    ensures var m := s.mapData.value;
      var x := Find(m.floorIntersections, FloorLinkIdIs(clicked)).value;
      var r := FloorLinkingSelection(s, Some(clicked));
      var d := r.floorLinkingContext.value;
      && r.floorLinkingContext.Some? && d.step == 1
      && d.primaryFloorIntersection == Some(SelectedFloorLinkingIntersection(clicked, m.id, x.originRoomId))
      && d.secondaryFloorIntersection == s.floorLinkingContext.value.secondaryFloorIntersection
      && d.primaryData == RegenerateLoadedMapData(s, Some(m))
      && d.secondaryData == s.floorLinkingContext.value.secondaryData
      && r == s.(floorLinkingContext := r.floorLinkingContext)
  {
    SwitchFillsSlotOfParity(s, s.mapData.value, Some(Selection(s.mapData.value, Find(s.mapData.value.floorIntersections, FloorLinkIdIs(clicked)).value)), None);
  }

  /** At step 1 a pick declines without a primary selection; otherwise it snapshots into the secondary
      slot the map in which the picked intersection, and no other, gained the target naming the primary
      selection, and records the picked one as the secondary selection. */
  lemma PickAtStepOne(s: EditorState, clicked: string)
    requires s.mapData.Some? && s.floorLinkingContext.Some? && s.floorLinkingContext.value.step == 1
    requires Find(s.mapData.value.floorIntersections, FloorLinkIdIs(clicked)).Some?
    ensures s.floorLinkingContext.value.primaryFloorIntersection.None? ==> FloorLinkingSelection(s, Some(clicked)) == s
    ensures s.floorLinkingContext.value.primaryFloorIntersection.Some? ==>
      var m := s.mapData.value;
      var c := s.floorLinkingContext.value;
      var x := Find(m.floorIntersections, FloorLinkIdIs(clicked)).value;
      var p := c.primaryFloorIntersection.value;
      var r := FloorLinkingSelection(s, Some(clicked));
      var d := r.floorLinkingContext.value;
      && r.floorLinkingContext.Some? && d.step == 2
      && d.secondaryData == RegenerateLoadedMapData(s, Some(AddTarget(m, clicked, FloorIntersectionTarget(p.mapId, p.id))))
      && d.secondaryFloorIntersection == Some(SelectedFloorLinkingIntersection(clicked, m.id, x.originRoomId))
      && d.primaryFloorIntersection == c.primaryFloorIntersection && d.primaryData == c.primaryData
      && r == s.(floorLinkingContext := r.floorLinkingContext)
  {
    var m := s.mapData.value;
    var c := s.floorLinkingContext.value;
    if c.primaryFloorIntersection.Some? {
      var x := Find(m.floorIntersections, FloorLinkIdIs(clicked)).value;
      var p := c.primaryFloorIntersection.value;
      SwitchFillsSlotOfParity(s, AddTarget(m, x.id, FloorIntersectionTarget(p.mapId, p.id)), None, Some(Selection(m, x)));
    }
  }

  /** A click on no floor intersection, or a pick after step 1, changes nothing. */
  lemma PickOtherwiseIgnored(s: EditorState, clicked: Option<string>)
    requires s.mapData.Some? && s.floorLinkingContext.Some?
    requires || clicked.None?
             || Find(s.mapData.value.floorIntersections, FloorLinkIdIs(clicked.value)).None?
             || s.floorLinkingContext.value.step >= 2
    ensures FloorLinkingSelection(s, clicked) == s
  {
  }

  /** The effect on `floorLinkingContext` (lines 487-493): step 1 shows the secondary snapshot, any
      later step the primary one, step 0 nothing new. */
  function SyncLoadedData(s: EditorState): (r: EditorState)
    ensures s.floorLinkingContext.None? || s.floorLinkingContext.value.step == 0 ==> r == s
    ensures s.floorLinkingContext.Some? && s.floorLinkingContext.value.step == 1 ==>
              r == s.(loadedData := Some(s.floorLinkingContext.value.secondaryData))
    ensures s.floorLinkingContext.Some? && s.floorLinkingContext.value.step >= 2 ==>
              r == s.(loadedData := Some(s.floorLinkingContext.value.primaryData))
  {
    if s.floorLinkingContext.None? || s.floorLinkingContext.value.step == 0 then s
    else
      var c := s.floorLinkingContext.value;
      s.(loadedData := Some(if c.step == 1 then c.secondaryData else c.primaryData))
  }

  /** `name.replace(pattern, "")`: the first occurrence of `pattern` removed. */
  function RemoveFirst(name: string, pattern: string): (r: string)
    ensures |r| == |name| || |r| == |name| - |pattern|
    decreases |name|
  {
    if |name| < |pattern| then name
    else if name[..|pattern|] == pattern then name[|pattern|..]
    else [name[0]] + RemoveFirst(name[1..], pattern)
  }

  /** The map created for an SVG loaded without one. */
  function DefaultMapData(freshId: string, svgName: string): MapData
  {
    MapData(freshId, RemoveFirst(svgName, ".svg"), [], [], [], [], 1, 6.0, 0.0, 0.5)
  }

  /** The effect on `loadedData` (lines 183-268), its data part: the map of the bundle is loaded (a new
      blank map when it has none) and its settings applied. At step 2 of a session with both selections
      the loaded map first gains the target naming the secondary selection, is snapshotted as the new
      primary, and the session returns to step 0 with no selection. */
  function ReloadLoadedData(s: EditorState, freshId: string): EditorState
  {
    if s.loadedData.None? || s.loadedData.value.svgMap.None? then s
    else
      var loaded := s.loadedData.value;
      var withMap :=
        if loaded.jsonData.None? then s.(mapData := Some(DefaultMapData(freshId, loaded.svgMap.value.name)))
        else
          var jsonData := loaded.jsonData.value;
          var c := s.floorLinkingContext;
          if s.mapMode == FloorLinking && c.Some? && c.value.step == 2
             && c.value.secondaryFloorIntersection.Some? && c.value.primaryFloorIntersection.Some? then
            var secondary := c.value.secondaryFloorIntersection.value;
            var linked := AddTarget(jsonData, c.value.primaryFloorIntersection.value.id,
                                    FloorIntersectionTarget(secondary.mapId, secondary.id));
            s.(floorLinkingContext := Some(FloorLinkingContext(RegenerateLoadedMapData(s, Some(linked)), c.value.primaryMapId,
                                                               c.value.secondaryData, c.value.secondaryMapId, None, None, 0)),
               mapData := Some(linked))
          else s.(mapData := Some(jsonData));
      if loaded.settings.Some? then withMap.(settings := loaded.settings.value) else withMap
  }

  /** At step 2 with both selections, reloading the primary map adds the reciprocal target to the
      primary intersection only, and resets the session to step 0 with both selections cleared, keeping
      the map ids and the secondary snapshot. */
  lemma ReloadCompletesLink(s: EditorState, freshId: string)
    requires s.loadedData.Some? && s.loadedData.value.svgMap.Some? && s.loadedData.value.jsonData.Some?
    requires s.mapMode == FloorLinking && s.floorLinkingContext.Some? && s.floorLinkingContext.value.step == 2
    requires s.floorLinkingContext.value.primaryFloorIntersection.Some?
    requires s.floorLinkingContext.value.secondaryFloorIntersection.Some?
    ensures var c := s.floorLinkingContext.value;
      var q := c.secondaryFloorIntersection.value;
      var linked := AddTarget(s.loadedData.value.jsonData.value, c.primaryFloorIntersection.value.id,
                              FloorIntersectionTarget(q.mapId, q.id));
      var r := ReloadLoadedData(s, freshId);
      var d := r.floorLinkingContext.value;
      && r.mapData == Some(linked)
      && r.floorLinkingContext.Some? && d.step == 0
      && d.primaryFloorIntersection.None? && d.secondaryFloorIntersection.None?
      && d.primaryData == RegenerateLoadedMapData(s, Some(linked))
      && d.primaryMapId == c.primaryMapId && d.secondaryMapId == c.secondaryMapId && d.secondaryData == c.secondaryData
  {
  }

  /** Leaving the mode (lines 1319-1323): the session ends and the editor returns to room mode. */
  function LeaveFloorLinking(s: EditorState): (r: EditorState)
    ensures r.floorLinkingContext.None? && r.mapMode == RoomMode
    ensures r == s.(floorLinkingContext := None, mapMode := RoomMode)
  {
    s.(floorLinkingContext := None, mapMode := RoomMode)
  }

  /** One whole linking round. Starting at step 0 on map `a`, with map `b` in the secondary bundle:
      pick `x` on `a`, show and load `b`, pick `y` on `b`, show and load `a` again. Then `a` holds the
      target (b, y) on `x`, the secondary snapshot holds `b` with the target (a, x) on `y`, and the
      session is back at step 0 with nothing selected. */
  lemma LinkingRound(s: EditorState, x: string, y: string, id1: string, id2: string)
    requires s.mapMode == FloorLinking && s.mapData.Some?
    requires s.loadedData.Some? && s.loadedData.value.svgMap.Some?
    requires s.floorLinkingContext.Some? && s.floorLinkingContext.value.step == 0
    requires s.floorLinkingContext.value.secondaryData.svgMap.Some? && s.floorLinkingContext.value.secondaryData.jsonData.Some?
    requires Find(s.mapData.value.floorIntersections, FloorLinkIdIs(x)).Some?
    requires Find(s.floorLinkingContext.value.secondaryData.jsonData.value.floorIntersections, FloorLinkIdIs(y)).Some?
    ensures var a := s.mapData.value;
      var b := s.floorLinkingContext.value.secondaryData.jsonData.value;
      var s1 := FloorLinkingSelection(s, Some(x));
      var s3 := ReloadLoadedData(SyncLoadedData(s1), id1);
      var s4 := FloorLinkingSelection(s3, Some(y));
      var s6 := ReloadLoadedData(SyncLoadedData(s4), id2);
      var d := s6.floorLinkingContext.value;
      && s6.mapData == Some(AddTarget(a, x, FloorIntersectionTarget(b.id, y)))
      && s6.floorLinkingContext.Some? && d.step == 0
      && d.primaryFloorIntersection.None? && d.secondaryFloorIntersection.None?
      && d.primaryData.jsonData == s6.mapData
      && d.secondaryData.jsonData == Some(AddTarget(b, y, FloorIntersectionTarget(a.id, x)))
  {
    var a := s.mapData.value;
    var c0 := s.floorLinkingContext.value;
    var b := c0.secondaryData.jsonData.value;
    var fx := Find(a.floorIntersections, FloorLinkIdIs(x)).value;
    var fy := Find(b.floorIntersections, FloorLinkIdIs(y)).value;
    var selA := Selection(a, fx);
    var selB := Selection(b, fy);

    // Pick on `a` at step 0.
    var s1 := FloorLinkingSelection(s, Some(x));
    PickAtStepZero(s, x);
    RegeneratedSnapshot(s, Some(a));
    var c1 := s1.floorLinkingContext.value;
    assert c1.primaryData.jsonData == Some(a) && c1.primaryData.svgMap.Some?;
    assert c1.primaryFloorIntersection == Some(selA) && c1.step == 1 && c1.secondaryData == c0.secondaryData;

    // Show and load `b`.
    var s2 := SyncLoadedData(s1);
    var s3 := ReloadLoadedData(s2, id1);
    assert s3.mapData == Some(b) && s3.floorLinkingContext == s1.floorLinkingContext;
    assert s3.loadedData == Some(c0.secondaryData);

    // Pick on `b` at step 1.
    var s4 := FloorLinkingSelection(s3, Some(y));
    PickAtStepOne(s3, y);
    var linkedB := AddTarget(b, y, FloorIntersectionTarget(a.id, x));
    RegeneratedSnapshot(s3, Some(linkedB));
    var c4 := s4.floorLinkingContext.value;
    assert c4.secondaryData.jsonData == Some(linkedB);
    assert c4.primaryData == c1.primaryData && c4.step == 2;
    assert c4.primaryFloorIntersection == Some(selA) && c4.secondaryFloorIntersection == Some(selB);

    // Show and load `a` again.
    var s5 := SyncLoadedData(s4);
    assert s5.loadedData == Some(c1.primaryData) && s5.mapData == Some(b);
    ReloadCompletesLink(s5, id2);
    var linkedA := AddTarget(a, x, FloorIntersectionTarget(b.id, y));
    RegeneratedSnapshot(s5, Some(linkedA));
  }

  /** The editor component: its fields are the state the session reads and writes. */
  class MapEditor {
    var mapData: Option<MapData>
    var loadedData: Option<LoadedData>
    var settings: EditorSettings
    var mapMode: MapMode
    var floorLinkingContext: Option<FloorLinkingContext>

    function State(): EditorState
      reads this
    {
      EditorState(mapData, loadedData, settings, mapMode, floorLinkingContext)
    }

    constructor ()
      ensures State() == InitialState()
    {
      mapData := None;
      loadedData := None;
      settings := EditorSettings(300, 2);
      mapMode := RoomMode;
      floorLinkingContext := None;
    }

    /** Commits a state computed by one of the session's transitions to the editor's fields. */
    method SetState(r: EditorState)
      modifies this
      ensures State() == r
    {
      mapData, loadedData, settings := r.mapData, r.loadedData, r.settings;
      mapMode, floorLinkingContext := r.mapMode, r.floorLinkingContext;
    }

    method EnterFloorLinking(otherLoadedData: LoadedData)
      modifies this
      ensures State() == StartFloorLinking(old(State()), otherLoadedData)
    {
      SetState(StartFloorLinking(State(), otherLoadedData));
    }

    method SwitchFloorLinkingMapData(overrideMapData: MapData,
                                     newPrimaryIntersection: Option<SelectedFloorLinkingIntersection>,
                                     newSecondaryIntersection: Option<SelectedFloorLinkingIntersection>)
      modifies this
      ensures State() == SwitchSnapshot(old(State()), overrideMapData, newPrimaryIntersection,
                                                                newSecondaryIntersection)
    {
      SetState(SwitchSnapshot(State(), overrideMapData, newPrimaryIntersection, newSecondaryIntersection));
    }

    method FloorLinkingSelectionListener(clicked: Option<string>)
      modifies this
      ensures State() == FloorLinkingSelection(old(State()), clicked)
    {
      SetState(FloorLinkingSelection(State(), clicked));
    }

    method OnFloorLinkingContextChange()
      modifies this
      ensures State() == SyncLoadedData(old(State()))
    {
      SetState(SyncLoadedData(State()));
    }

    method OnLoadedDataChange(freshId: string)
      modifies this
      ensures State() == ReloadLoadedData(old(State()), freshId)
    {
      SetState(ReloadLoadedData(State(), freshId));
    }

    method FinishFloorLinking()
      modifies this
      ensures State() == LeaveFloorLinking(old(State()))
    {
      SetState(LeaveFloorLinking(State()));
    }
  }
}
