/** `addSources`: the sources the map component needs, added to the engine's
    source table. Three are added only when absent; the terrain and composite
    sources are added unconditionally, and the engine refuses a taken id. */
module SourceSetup {
  import opened Geo
  import opened Engine

  const StreetsId: string := "mapbox-streets"
  const PlacesId: string := "places"
  const TerrainId: string := "mapbox://mapbox.terrain-rgb"
  const CompositeId: string := "composite-1"
  const LabelsId: string := "labels"

  const StreetsSource: Source := VectorSource("mapbox://mapbox.mapbox-streets-v8")
  const PlacesSource: Source := GeoJsonSource(FeatureCollection([]), None)
  const TerrainSource: Source := RasterDemSource("mapbox://mapbox.terrain-rgb", 256)
  const CompositeSource: Source :=
    VectorSource("mapbox://mapbox.mapbox-streets-v8,benci.32tn9yzr,benci.082szyoz,mapbox.mapbox-terrain-v2")
  const LabelsSource: Source := GeoJsonSource(FeatureCollection([]), Some(Cluster(14, 25)))

  /** The source table after `addSources`, and whether it ran to the end. */
  datatype Setup = Setup(sources: map<string, Source>, ok: bool)

  function AddIfAbsent(t: map<string, Source>, id: string, s: Source): map<string, Source> {
    if id in t then t else t[id := s]
  }

  /** What `addSources` does to a source table `t`. */
  function SetUp(t: map<string, Source>): (r: Setup)
    ensures r.ok <==> TerrainId !in t && CompositeId !in t
    ensures forall id :: id in t ==> id in r.sources && r.sources[id] == t[id]
    ensures forall id :: id in r.sources ==> id in t || id in {StreetsId, PlacesId, TerrainId, CompositeId, LabelsId}
    ensures StreetsId in r.sources && PlacesId in r.sources
    ensures r.ok ==> TerrainId in r.sources && CompositeId in r.sources && LabelsId in r.sources
    ensures StreetsId !in t ==> r.sources[StreetsId] == StreetsSource
    ensures PlacesId !in t ==> r.sources[PlacesId] == GeoJsonSource(FeatureCollection([]), None)
    ensures r.ok ==> r.sources[TerrainId] == TerrainSource && r.sources[CompositeId] == CompositeSource
    ensures r.ok && LabelsId !in t ==> r.sources[LabelsId] == GeoJsonSource(FeatureCollection([]), Some(Cluster(14, 25)))
    ensures forall id :: (id in r.sources && id !in t && r.sources[id].GeoJsonSource? && r.sources[id].cluster.Some?)
                         ==> id == LabelsId
    ensures r.ok ==> r.sources.Keys == t.Keys + {StreetsId, PlacesId, TerrainId, CompositeId, LabelsId}
    ensures !r.ok ==> r.sources.Keys == t.Keys + {StreetsId, PlacesId, TerrainId}
    ensures !r.ok && TerrainId !in t ==> r.sources[TerrainId] == TerrainSource
  {
    var t1 := AddIfAbsent(AddIfAbsent(t, StreetsId, StreetsSource), PlacesId, PlacesSource);
    if TerrainId in t1 then Setup(t1, false)
    else
      var t2 := t1[TerrainId := TerrainSource];
      if CompositeId in t2 then Setup(t2, false)
      else Setup(AddIfAbsent(t2[CompositeId := CompositeSource], LabelsId, LabelsSource), true)
  }

  /** Running the setup again on its own result changes nothing: the guarded
      additions find their sources present, and the unconditional terrain
      source is refused. */
  lemma SetUpTwice(t: map<string, Source>)
    requires SetUp(t).ok
    ensures SetUp(SetUp(t).sources) == Setup(SetUp(t).sources, false)
  {
    var r := SetUp(t).sources;
    assert TerrainId in r;
    assert AddIfAbsent(AddIfAbsent(r, StreetsId, StreetsSource), PlacesId, PlacesSource) == r;
  }

  /** After a style reload has emptied the table, the setup succeeds and
      leaves exactly the five sources, `labels` the only clustered one. */
  lemma SetUpAfterReload()
    ensures SetUp(map[]).ok
    ensures SetUp(map[]).sources.Keys == {StreetsId, PlacesId, TerrainId, CompositeId, LabelsId}
    ensures forall id :: (id in SetUp(map[]).sources && SetUp(map[]).sources[id].GeoJsonSource?
                          && SetUp(map[]).sources[id].cluster.Some?) ==> id == LabelsId
  {
    var r := SetUp(map[]).sources;
    assert {StreetsId, PlacesId, TerrainId, CompositeId, LabelsId} <= r.Keys;
  }

  /** `addSources(map)`. */
  method AddSources(m: MapEngine) returns (ok: bool)
    modifies m`sources
    ensures Setup(m.sources, ok) == SetUp(old(m.sources))
  {
    var added: bool;
    if StreetsId !in m.sources {
      added := m.AddSource(StreetsId, StreetsSource);
    }
    if PlacesId !in m.sources {
      added := m.AddSource(PlacesId, PlacesSource);
    }
    ok := m.AddSource(TerrainId, TerrainSource);
    if !ok {
      return;
    }
    ok := m.AddSource(CompositeId, CompositeSource);
    if !ok {
      return;
    }
    if LabelsId !in m.sources {
      added := m.AddSource(LabelsId, LabelsSource);
    }
  }
}
