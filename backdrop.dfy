/** The basemap radio buttons: four mutually exclusive backdrops, switched
    either by a destructive style reload (whose re-adding of sources and
    layers waits for `style.load`) or by visibility toggles on `white-map`
    and the four structure layers. */
module Backdrop {
  import opened Geo
  import opened Engine
  import opened SourceSetup

  const OutdoorsStyle: string := "Mapbox Outdoors"
  const HistogenesStyle: string := "Histogenes"

  const AdminLayer: string := "admin_str"
  const AerowayLayer: string := "aeroway_str"
  const BuildingLayer: string := "building_str"
  const RoadLayer: string := "road_str"
  const WhiteLayer: string := "white-map"
  const LabelsTextLayer: string := "labels-text"

  const StructureLayers: set<string> := {AdminLayer, AerowayLayer, BuildingLayer, RoadLayer}

  /** The backdrop the user picks with the radio buttons. */
  datatype Variant = Outdoor | Histogenes | Structures | White

  /** A structure layer as `addStructures` creates it. */
  const StructureLayer: Layer := Layer(Some(StreetsId), Hidden)

  /** `setStructureLabels(map, v)`: the four structure layers that exist get
      the same visibility; nothing else changes. */
  function StructureLabels(layers: map<string, Layer>, v: Visibility): (r: map<string, Layer>)
    ensures r.Keys == layers.Keys
    ensures forall id :: id in layers && id in StructureLayers ==> r[id] == Layer(layers[id].source, v)
    ensures forall id :: id in layers && id !in StructureLayers ==> r[id] == layers[id]
  {
    SetVisibility(SetVisibility(SetVisibility(SetVisibility(layers, AdminLayer, v), AerowayLayer, v), BuildingLayer, v), RoadLayer, v)
  }

  /** `structureMapLoaded(map)`: whether `admin_str` is visible; `None` when
      the layer is missing, where reading its visibility throws. */
  function StructureMapLoaded(layers: map<string, Layer>): (r: Option<bool>)
    ensures r.None? <==> AdminLayer !in layers
    ensures r.Some? ==> (r.value <==> layers[AdminLayer].visibility == Visible)
  {
    if AdminLayer in layers then Some(layers[AdminLayer].visibility == Visible) else None
  }

  /** `removeIfExists(id, map)` followed by `addLayer`. */
  function Recreate(layers: map<string, Layer>, id: string, l: Layer): map<string, Layer> {
    (layers - {id})[id := l]
  }

  /** `addStructures(map)`: the four structure layers recreated hidden. */
  function WithStructures(layers: map<string, Layer>): (r: map<string, Layer>)
    ensures r.Keys == layers.Keys + StructureLayers
    ensures forall id :: id in StructureLayers ==> r[id] == StructureLayer
    ensures forall id :: id in layers && id !in StructureLayers ==> r[id] == layers[id]
  {
    Recreate(Recreate(Recreate(Recreate(layers, AdminLayer, StructureLayer), AerowayLayer, StructureLayer),
                      BuildingLayer, StructureLayer), RoadLayer, StructureLayer)
  }

  /** `addWhiteLayer(map)`: the white background recreated hidden. */
  function WithWhiteLayer(layers: map<string, Layer>): (r: map<string, Layer>)
    ensures r.Keys == layers.Keys + {WhiteLayer}
    ensures r[WhiteLayer] == Layer(None, Hidden)
    ensures forall id :: id in layers && id != WhiteLayer ==> r[id] == layers[id]
  {
    Recreate(layers, WhiteLayer, Layer(None, Hidden))
  }

  /** `addLayers(map)`, restricted to the layers this model tracks. */
  function WithLayers(layers: map<string, Layer>): map<string, Layer> {
    Recreate(WithWhiteLayer(WithStructures(layers)), LabelsTextLayer, Layer(Some(LabelsId), Visible))
  }

  predicate StructuresShown(layers: map<string, Layer>) {
    AdminLayer in layers && layers[AdminLayer].visibility == Visible
  }

  predicate WhiteShown(layers: map<string, Layer>) {
    WhiteLayer in layers && layers[WhiteLayer].visibility == Visible
  }

  /** All five backdrop layers exist. */
  predicate BackdropPresent(layers: map<string, Layer>) {
    StructureLayers <= layers.Keys && WhiteLayer in layers
  }

  /** The structure layers exist all together or not at all, share one
      visibility, and are never shown together with the white background. */
  predicate Consistent(layers: map<string, Layer>) {
    && (|| (forall id :: id in StructureLayers ==> id !in layers)
        || (&& (forall id :: id in StructureLayers ==> id in layers)
            && (forall id :: id in StructureLayers ==> layers[id].visibility == layers[AdminLayer].visibility)))
    && !(StructuresShown(layers) && WhiteShown(layers))
  }

  /** The backdrop the engine shows. */
  function Shown(s: EngineState): Variant {
    if WhiteShown(s.layers) then White
    else if StructuresShown(s.layers) then Structures
    else if s.styleName == OutdoorsStyle then Outdoor
    else Histogenes
  }

  /** `addLayers` recreates every backdrop layer hidden and shows the labels. */
  lemma WithLayersHidesBackdrops(layers: map<string, Layer>)
    ensures WithLayers(layers).Keys == layers.Keys + StructureLayers + {WhiteLayer, LabelsTextLayer}
    ensures forall id :: id in StructureLayers ==> WithLayers(layers)[id] == StructureLayer
    ensures WithLayers(layers)[WhiteLayer] == Layer(None, Hidden)
    ensures WithLayers(layers)[LabelsTextLayer] == Layer(Some(LabelsId), Visible)
    ensures forall id :: (id in layers && id !in StructureLayers && id != WhiteLayer && id != LabelsTextLayer)
                         ==> WithLayers(layers)[id] == layers[id]
  {
  }

  /** A destructive reload: the style's name changes, its sources and layers
      are gone and the re-adding waits for `style.load`. */
  function Reload(s: EngineState, style: string, k: Continuation): EngineState {
    EngineState(style, map[], map[], s.pending + [k])
  }

  /** The Outdoor radio: reload the outdoors style unless it is the current
      one, and hide the white background. */
  function OutdoorClicked(s: EngineState): EngineState {
    var s1 := if s.styleName != OutdoorsStyle then Reload(s, OutdoorsStyle, ReAdd) else s;
    s1.(layers := SetVisibility(s1.layers, WhiteLayer, Hidden))
  }

  /** The Histogenes radio: reload the Histogenes style unless it is the
      current one, hide the structures if shown and hide the white
      background; a missing `admin_str` stops the handler. */
  function HistogenesClicked(s: EngineState): EngineState {
    var s1 := if s.styleName != HistogenesStyle then Reload(s, HistogenesStyle, ReAdd) else s;
    match StructureMapLoaded(s1.layers)
    case None => s1
    case Some(loaded) =>
      var l := if loaded then StructureLabels(s1.layers, Hidden) else s1.layers;
      s1.(layers := SetVisibility(l, WhiteLayer, Hidden))
  }

  /** The Structures radio: reload the Histogenes style with a continuation
      that also shows the structures, or, on that style, show the structures
      and hide the white background unless they are already shown. */
  function StructuresClicked(s: EngineState): EngineState {
    if s.styleName != HistogenesStyle then Reload(s, HistogenesStyle, ReAddStructures)
    else
      match StructureMapLoaded(s.layers)
      case None => s
      case Some(loaded) =>
        if loaded then s
        else s.(layers := SetVisibility(StructureLabels(s.layers, Visible), WhiteLayer, Hidden))
  }

  /** The White radio: show the white background and hide the structures. */
  function WhiteClicked(s: EngineState): EngineState {
    s.(layers := StructureLabels(SetVisibility(s.layers, WhiteLayer, Visible), Hidden))
  }

  function Clicked(s: EngineState, v: Variant): EngineState {
    match v
    case Outdoor => OutdoorClicked(s)
    case Histogenes => HistogenesClicked(s)
    case Structures => StructuresClicked(s)
    case White => WhiteClicked(s)
  }

  /** The engine after a `style.load` continuation, and whether it ran to
      the end (`addSources` throws on a taken terrain or composite id). */
  datatype Step = Step(state: EngineState, ok: bool)

  function RunContinuation(s: EngineState, k: Continuation): Step {
    var setup := SetUp(s.sources);
    if !setup.ok then Step(s.(sources := setup.sources), false)
    else
      var l := WithLayers(s.layers);
      var l2 := if k == ReAddStructures then SetVisibility(StructureLabels(l, Visible), WhiteLayer, Hidden) else l;
      Step(s.(sources := setup.sources, layers := l2), true)
  }

  /** The continuations in registration order; one that throws stops the
      rest. */
  function RunAll(s: EngineState, ks: seq<Continuation>): EngineState
    decreases |ks|
  {
    if ks == [] then s
    else
      var step := RunContinuation(s, ks[0]);
      if !step.ok then step.state else RunAll(step.state, ks[1..])
  }

  /** `style.load`: every pending continuation runs once. */
  function StyleLoaded(s: EngineState): EngineState {
    RunAll(s.(pending := []), s.pending)
  }

  /** `style.load` as the radio handlers register it: `map.on` keeps every
      continuation registered, so each load runs all of them again, oldest
      first, and none is ever dropped. */
  function StyleLoadedAsWritten(s: EngineState): EngineState {
    RunAll(s, s.pending)
  }

  /** The state once a pending reload has finished loading. */
  function Settle(s: EngineState): EngineState {
    if s.pending == [] then s else StyleLoaded(s)
  }

  /** The map's first `load`: sources and layers added. */
  function MapLoaded(s: EngineState): EngineState {
    RunContinuation(s, ReAdd).state
  }

  // ---------------------------------------------------------------------
  // The handlers and helpers as they act on the engine.

  method SetStructureLabels(m: MapEngine, v: Visibility)
    modifies m`layers
    ensures m.layers == StructureLabels(old(m.layers), v)
  {
    m.SetLayoutVisibility(AdminLayer, v);
    m.SetLayoutVisibility(AerowayLayer, v);
    m.SetLayoutVisibility(BuildingLayer, v);
    m.SetLayoutVisibility(RoadLayer, v);
  }

  method RecreateLayer(m: MapEngine, id: string, l: Layer)
    modifies m`layers
    ensures m.layers == Recreate(old(m.layers), id, l)
  {
    m.RemoveLayerIfExists(id);
    m.AddLayer(id, l);
  }

  method AddStructures(m: MapEngine)
    modifies m`layers
    ensures m.layers == WithStructures(old(m.layers))
  {
    RecreateLayer(m, AdminLayer, StructureLayer);
    RecreateLayer(m, AerowayLayer, StructureLayer);
    RecreateLayer(m, BuildingLayer, StructureLayer);
    RecreateLayer(m, RoadLayer, StructureLayer);
  }

  method AddWhiteLayer(m: MapEngine)
    modifies m`layers
    ensures m.layers == WithWhiteLayer(old(m.layers))
  {
    RecreateLayer(m, WhiteLayer, Layer(None, Hidden));
  }

  method AddLayers(m: MapEngine)
    modifies m`layers
    ensures m.layers == WithLayers(old(m.layers))
  {
    AddStructures(m);
    AddWhiteLayer(m);
    RecreateLayer(m, LabelsTextLayer, Layer(Some(LabelsId), Visible));
  }

  method OnOutdoorClick(m: MapEngine)
    modifies m
    ensures m.Snapshot() == OutdoorClicked(old(m.Snapshot()))
  {
    if m.styleName != OutdoorsStyle {
      m.SetStyle(OutdoorsStyle);
      m.OnStyleLoad(ReAdd);
    }
    m.SetLayoutVisibility(WhiteLayer, Hidden);
  }

  method OnHistogenesClick(m: MapEngine)
    modifies m
    ensures m.Snapshot() == HistogenesClicked(old(m.Snapshot()))
  {
    if m.styleName != HistogenesStyle {
      m.SetStyle(HistogenesStyle);
      m.OnStyleLoad(ReAdd);
    }
    if AdminLayer !in m.layers {
      return;
    }
    if m.layers[AdminLayer].visibility == Visible {
      SetStructureLabels(m, Hidden);
    }
    m.SetLayoutVisibility(WhiteLayer, Hidden);
  }

  method OnStructuresClick(m: MapEngine)
    modifies m
    ensures m.Snapshot() == StructuresClicked(old(m.Snapshot()))
  {
    if m.styleName != HistogenesStyle {
      m.SetStyle(HistogenesStyle);
      m.OnStyleLoad(ReAddStructures);
    } else if AdminLayer in m.layers && m.layers[AdminLayer].visibility != Visible {
      SetStructureLabels(m, Visible);
      m.SetLayoutVisibility(WhiteLayer, Hidden);
    }
  }

  method OnWhiteClick(m: MapEngine)
    modifies m
    ensures m.Snapshot() == WhiteClicked(old(m.Snapshot()))
  {
    m.SetLayoutVisibility(WhiteLayer, Visible);
    SetStructureLabels(m, Hidden);
  }

  /** One `style.load` continuation. */
  method Continue(m: MapEngine, k: Continuation) returns (ok: bool)
    modifies m`sources, m`layers
    ensures Step(m.Snapshot(), ok) == RunContinuation(old(m.Snapshot()), k)
  {
    ok := AddSources(m);
    if !ok {
      return;
    }
    AddLayers(m);
    if k == ReAddStructures {
      SetStructureLabels(m, Visible);
      m.SetLayoutVisibility(WhiteLayer, Hidden);
    }
  }

  /** The engine firing `style.load`. */
  method OnStyleLoad(m: MapEngine)
    modifies m
    ensures m.Snapshot() == StyleLoaded(old(m.Snapshot()))
  {
    ghost var s0 := m.Snapshot();
    var ks := m.TakePending();
    var i := 0;
    while i < |ks|
      invariant 0 <= i <= |ks|
      invariant m.pending == []
      invariant RunAll(m.Snapshot(), ks[i..]) == StyleLoaded(s0)
    {
      var ok := Continue(m, ks[i]);
      if !ok {
        return;
      }
      i := i + 1;
    }
  }

  /** The engine firing the map's first `load`. */
  method OnMapLoad(m: MapEngine)
    modifies m`sources, m`layers
    ensures m.Snapshot() == MapLoaded(old(m.Snapshot()))
  {
    var ok := Continue(m, ReAdd);
  }

  // ---------------------------------------------------------------------
  // Properties.

  /** A handler reloads exactly when the current style is not the one its
      backdrop needs; White never reloads. */
  lemma ReloadOnlyWhenStyleDiffers(s: EngineState)
    ensures OutdoorClicked(s).styleName == OutdoorsStyle
    ensures HistogenesClicked(s).styleName == HistogenesStyle
    ensures StructuresClicked(s).styleName == HistogenesStyle
    ensures WhiteClicked(s).styleName == s.styleName
    ensures OutdoorClicked(s).pending == if s.styleName == OutdoorsStyle then s.pending else s.pending + [ReAdd]
    ensures HistogenesClicked(s).pending == if s.styleName == HistogenesStyle then s.pending else s.pending + [ReAdd]
    ensures StructuresClicked(s).pending ==
            if s.styleName == HistogenesStyle then s.pending else s.pending + [ReAddStructures]
    ensures WhiteClicked(s).pending == s.pending
  {
  }

  /** The handlers never add a source or a layer: re-adding happens only in
      the `style.load` continuations. */
  lemma HandlersNeverAdd(s: EngineState, v: Variant)
    ensures Clicked(s, v).sources.Keys <= s.sources.Keys
    ensures Clicked(s, v).layers.Keys <= s.layers.Keys
  {
  }

  /** White shows the white background and hides every structure layer. */
  lemma WhiteShowsWhite(s: EngineState)
    requires WhiteLayer in s.layers
    ensures WhiteShown(WhiteClicked(s).layers)
    ensures forall id :: id in StructureLayers && id in s.layers ==> WhiteClicked(s).layers[id].visibility == Hidden
    ensures Shown(WhiteClicked(s)) == White
  {
  }

  /** Outdoor and Histogenes leave the white background hidden, Histogenes
      unless a missing `admin_str` stopped it first. */
  lemma OtherVariantsHideWhite(s: EngineState)
    ensures !WhiteShown(OutdoorClicked(s).layers)
    ensures (s.styleName != HistogenesStyle || AdminLayer in s.layers) ==> !WhiteShown(HistogenesClicked(s).layers)
  {
  }

  lemma ClickedConsistent(s: EngineState, v: Variant)
    requires Consistent(s.layers)
    ensures Consistent(Clicked(s, v).layers)
  {
  }

  /** `addLayers` leaves consistent layers whatever it starts from, and so
      does the structures continuation after it. */
  lemma WithLayersConsistent(layers: map<string, Layer>)
    ensures Consistent(WithLayers(layers))
    ensures Consistent(SetVisibility(StructureLabels(WithLayers(layers), Visible), WhiteLayer, Hidden))
  {
    WithLayersHidesBackdrops(layers);
    var l := WithLayers(layers);
    assert l[AdminLayer] == StructureLayer;
    var l2 := SetVisibility(StructureLabels(l, Visible), WhiteLayer, Hidden);
    assert forall id :: id in StructureLayers ==> l2[id] == Layer(Some(StreetsId), Visible);
  }

  lemma ContinuationConsistent(s: EngineState, k: Continuation)
    requires Consistent(s.layers)
    ensures Consistent(RunContinuation(s, k).state.layers)
    ensures RunContinuation(s, k).state.pending == s.pending
  {
    if SetUp(s.sources).ok {
      WithLayersConsistent(s.layers);
    }
  }

  lemma {:induction false} RunAllConsistent(s: EngineState, ks: seq<Continuation>)
    requires Consistent(s.layers)
    ensures Consistent(RunAll(s, ks).layers)
    ensures RunAll(s, ks).pending == s.pending
    decreases |ks|
  {
    if ks != [] {
      ContinuationConsistent(s, ks[0]);
      RunAllConsistent(RunContinuation(s, ks[0]).state, ks[1..]);
    }
  }

  /** Every handler and every `style.load` keeps the backdrop layers
      consistent: structures uniform and never shown with the white
      background. */
  lemma StyleLoadedConsistent(s: EngineState)
    requires Consistent(s.layers)
    ensures Consistent(StyleLoaded(s).layers)
    ensures StyleLoaded(s).pending == []
  {
    RunAllConsistent(s.(pending := []), s.pending);
  }

  /** A settled engine showing its backdrop: nothing pending, the backdrop
      layers present and consistent, structures shown only on the Histogenes
      style. */
  predicate Ready(s: EngineState) {
    && s.pending == []
    && BackdropPresent(s.layers)
    && Consistent(s.layers)
    && (s.styleName != HistogenesStyle ==> !StructuresShown(s.layers))
  }

  /** After a reload, the pending continuation rebuilds the backdrop from
      an empty engine. */
  lemma ReloadSettles(s: EngineState, style: string, k: Continuation)
    requires s.pending == []
    ensures var r := Settle(Reload(s, style, k)).layers;
      && r == RunContinuation(EngineState(style, map[], map[], []), k).state.layers
      && BackdropPresent(r) && Consistent(r)
      && (k == ReAdd ==> !StructuresShown(r) && !WhiteShown(r))
      && (k == ReAddStructures ==> StructuresShown(r) && !WhiteShown(r))
    ensures Settle(Reload(s, style, k)).styleName == style
    ensures Settle(Reload(s, style, k)).pending == []
  {
    var e := EngineState(style, map[], map[], []);
    assert Reload(s, style, k).pending == [k];
    assert Reload(s, style, k).(pending := []) == e;
    SetUpAfterReload();
    assert RunContinuation(e, k).ok;
    var done := RunContinuation(e, k).state;
    assert RunAll(e, [k]) == RunAll(done, [k][1..]);
    assert [k][1..] == [];
    assert RunAll(done, []) == done;
    assert Settle(Reload(s, style, k)) == RunAll(e, [k]);
    WithLayersHidesBackdrops(map[]);
    WithLayersConsistent(map[]);
  }

  lemma OutdoorSettles(s: EngineState)
    requires Ready(s)
    ensures Ready(Settle(OutdoorClicked(s))) && Shown(Settle(OutdoorClicked(s))) == Outdoor
  {
    if s.styleName != OutdoorsStyle {
      ReloadSettles(s, OutdoorsStyle, ReAdd);
    }
  }

  lemma HistogenesSettles(s: EngineState)
    requires Ready(s)
    ensures Ready(Settle(HistogenesClicked(s))) && Shown(Settle(HistogenesClicked(s))) == Histogenes
  {
    if s.styleName != HistogenesStyle {
      ReloadSettles(s, HistogenesStyle, ReAdd);
    }
  }

  lemma StructuresSettles(s: EngineState)
    requires Ready(s)
    ensures Ready(Settle(StructuresClicked(s))) && Shown(Settle(StructuresClicked(s))) == Structures
  {
    if s.styleName != HistogenesStyle {
      ReloadSettles(s, HistogenesStyle, ReAddStructures);
    }
  }

  /** From a settled engine, one click followed by the load it may have
      started shows exactly the clicked backdrop and is settled again. */
  lemma ClickThenSettle(s: EngineState, v: Variant)
    requires Ready(s)
    ensures Ready(Settle(Clicked(s, v)))
    ensures Shown(Settle(Clicked(s, v))) == v
  {
    match v
    case Outdoor => OutdoorSettles(s);
    case Histogenes => HistogenesSettles(s);
    case Structures => StructuresSettles(s);
    case White => WhiteShowsWhite(s);
  }

  /** The map's first load leaves a settled Histogenes backdrop with the
      five sources in place. */
  lemma FirstLoadReady()
    ensures Ready(MapLoaded(EngineState(HistogenesStyle, map[], map[], [])))
    ensures Shown(MapLoaded(EngineState(HistogenesStyle, map[], map[], []))) == Histogenes
    ensures MapLoaded(EngineState(HistogenesStyle, map[], map[], [])).sources.Keys
            == {StreetsId, PlacesId, TerrainId, CompositeId, LabelsId}
  {
    SetUpAfterReload();
    WithLayersHidesBackdrops(map[]);
  }

  /** Two continuations on a freshly reloaded engine: the first re-adds the
      sources, so the second throws at the terrain source and leaves the
      layers as the first made them. */
  lemma SecondContinuationThrows(e: EngineState, k1: Continuation, k2: Continuation)
    requires e.sources == map[] && e.layers == map[]
    ensures RunAll(e, [k1, k2]).layers == RunContinuation(e, k1).state.layers
    ensures RunAll(e, [k1, k2]).styleName == e.styleName
  {
    SetUpAfterReload();
    SetUpTwice(map[]);
    var t := RunContinuation(e, k1).state;
    assert RunAll(e, [k1, k2]) == RunAll(t, [k1, k2][1..]);
    assert [k1, k2][1..] == [k2];
    assert !RunContinuation(t, k2).ok;
  }

  /** With the continuations kept registered as written, the second switch
      after mount already goes wrong: Outdoor, its load, then Structures and
      its load leave the structures hidden on the Histogenes style. */
  lemma AsWrittenSwitchLosesStructures()
    ensures var s1 := MapLoaded(EngineState(HistogenesStyle, map[], map[], []));
      var s2 := StyleLoadedAsWritten(OutdoorClicked(s1));
      var s3 := StyleLoadedAsWritten(StructuresClicked(s2));
      && Shown(s2) == Outdoor
      && s3.styleName == HistogenesStyle && !StructuresShown(s3.layers)
      && Shown(s3) == Histogenes
  {
    var s1 := MapLoaded(EngineState(HistogenesStyle, map[], map[], []));
    var s2 := StyleLoadedAsWritten(OutdoorClicked(s1));
    AsWrittenOutdoorLoads();
    WithLayersHidesBackdrops(map[]);
    var c2 := StructuresClicked(s2);
    assert c2 == EngineState(HistogenesStyle, map[], map[], [ReAdd, ReAddStructures]);
    SecondContinuationThrows(c2, ReAdd, ReAddStructures);
    SetUpAfterReload();
  }

  /** The first switch after mount, to Outdoor, and its load. */
  lemma AsWrittenOutdoorLoads()
    ensures var s2 := StyleLoadedAsWritten(OutdoorClicked(MapLoaded(EngineState(HistogenesStyle, map[], map[], []))));
      s2 == EngineState(OutdoorsStyle, SetUp(map[]).sources, WithLayers(map[]), [ReAdd])
  {
    var s1 := MapLoaded(EngineState(HistogenesStyle, map[], map[], []));
    FirstLoadReady();
    var c1 := OutdoorClicked(s1);
    assert c1 == EngineState(OutdoorsStyle, map[], map[], [ReAdd]);
    SetUpAfterReload();
    assert RunAll(c1, [ReAdd]) == RunAll(RunContinuation(c1, ReAdd).state, [ReAdd][1..]);
    assert [ReAdd][1..] == [];
  }

  /** The same two switches with run-once continuations show the
      structures. */
  lemma SwitchShowsStructures()
    ensures var s1 := MapLoaded(EngineState(HistogenesStyle, map[], map[], []));
      Shown(Settle(StructuresClicked(Settle(OutdoorClicked(s1))))) == Structures
  {
    var s1 := MapLoaded(EngineState(HistogenesStyle, map[], map[], []));
    FirstLoadReady();
    ClickThenSettle(s1, Outdoor);
    ClickThenSettle(Settle(OutdoorClicked(s1)), Structures);
  }

  /** Even with run-once continuations, two reload-requiring clicks before
      the style loads run both continuations on the one load: Structures
      then Outdoor from the Outdoors style leaves the structures shown on
      the Outdoors style. */
  lemma RapidClicksShowStructuresOnOutdoors(s: EngineState)
    requires Ready(s) && s.styleName == OutdoorsStyle
    ensures var t := Settle(OutdoorClicked(StructuresClicked(s)));
      t.styleName == OutdoorsStyle && StructuresShown(t.layers) && !Ready(t)
  {
    var c := OutdoorClicked(StructuresClicked(s));
    assert c == EngineState(OutdoorsStyle, map[], map[], [ReAddStructures, ReAdd]);
    var e := c.(pending := []);
    SecondContinuationThrows(e, ReAddStructures, ReAdd);
    SetUpAfterReload();
    WithLayersHidesBackdrops(map[]);
  }
}
