/** The rendering engine as the map component uses it: a named source table, a
    layer table with a `visibility` per layer, the name of the current style and
    the `style.load` continuations registered and not yet run. */
module Engine {
  import opened Geo

  /** The `visibility` layout property: 'visible' or 'none'. */
  datatype Visibility = Visible | Hidden

  /** A layer: the source it draws from, if any, and its visibility. */
  datatype Layer = Layer(source: Option<string>, visibility: Visibility)

  /** Clustering options of a GeoJSON source. */
  datatype Cluster = Cluster(maxZoom: nat, radius: nat)

  /** The data of a GeoJSON source: a FeatureCollection of features or of labels. */
  datatype Collection = FeatureCollection(features: seq<Feature>) | LabelCollection(labels: seq<Label>)

  datatype Source =
    | VectorSource(url: string)
    | RasterDemSource(url: string, tileSize: nat)
    | GeoJsonSource(data: Collection, cluster: Option<Cluster>)

  /** A `style.load` continuation registered by a basemap radio handler: re-add
      sources and layers, and for the structures variant also show the
      structure layers and hide the white background. */
  datatype Continuation = ReAdd | ReAddStructures

  /** A snapshot of the engine, for stating what its operations do. */
  datatype EngineState = EngineState(
    styleName: string,
    sources: map<string, Source>,
    layers: map<string, Layer>,
    pending: seq<Continuation>)

  /** `setLayoutProperty(id, 'visibility', v)`: a layer that does not exist is
      reported by the engine and left alone. */
  function SetVisibility(layers: map<string, Layer>, id: string, v: Visibility): (r: map<string, Layer>)
    ensures r.Keys == layers.Keys
    ensures id in layers ==> r[id] == Layer(layers[id].source, v)
    ensures forall k :: k in layers && k != id ==> r[k] == layers[k]
  {
    if id in layers then layers[id := layers[id].(visibility := v)] else layers
  }

  /** `getSource(id).setData(data)`: fails (the call throws) when there is no
      such source or it is not a GeoJSON source. */
  function SetSourceData(sources: map<string, Source>, id: string, data: Collection): (r: Option<map<string, Source>>)
    ensures r.Some? <==> id in sources && sources[id].GeoJsonSource?
    ensures r.Some? ==> r.value.Keys == sources.Keys && r.value[id] == GeoJsonSource(data, sources[id].cluster)
    ensures r.Some? ==> forall k :: k in sources && k != id ==> r.value[k] == sources[k]
  {
    if id in sources && sources[id].GeoJsonSource? then Some(sources[id := sources[id].(data := data)]) else None
  }

  class MapEngine {
    var styleName: string
    var sources: map<string, Source>
    var layers: map<string, Layer>
    var pending: seq<Continuation>

    function Snapshot(): EngineState
      reads this
    {
      EngineState(styleName, sources, layers, pending)
    }

    constructor (style: string)
      ensures Snapshot() == EngineState(style, map[], map[], [])
    {
      styleName, sources, layers, pending := style, map[], map[], [];
    }

    /** `addSource`: the engine throws when the id is taken. */
    method AddSource(id: string, s: Source) returns (ok: bool)
      modifies this`sources
      ensures ok <==> id !in old(sources)
      ensures sources == if ok then old(sources)[id := s] else old(sources)
    {
      ok := id !in sources;
      if ok {
        sources := sources[id := s];
      }
    }

    /** `addLayer`, always called right after `removeIfExists` for the same id. */
    method AddLayer(id: string, l: Layer)
      requires id !in layers
      modifies this`layers
      ensures layers == old(layers)[id := l]
    {
      layers := layers[id := l];
    }

    /** `removeIfExists(id, map)`. */
    method RemoveLayerIfExists(id: string)
      modifies this`layers
      ensures layers == old(layers) - {id}
    {
      layers := layers - {id};
    }

    method SetLayoutVisibility(id: string, v: Visibility)
      modifies this`layers
      ensures layers == SetVisibility(old(layers), id, v)
    {
      layers := SetVisibility(layers, id, v);
    }

    method SetData(id: string, data: Collection) returns (ok: bool)
      modifies this`sources
      ensures ok <==> SetSourceData(old(sources), id, data).Some?
      ensures sources == if ok then SetSourceData(old(sources), id, data).value else old(sources)
    {
      var r := SetSourceData(sources, id, data);
      ok := r.Some?;
      if ok {
        sources := r.value;
      }
    }

    /** `setStyle`: a destructive reload; the new style carries none of the
        custom sources and layers. */
    method SetStyle(name: string)
      modifies this`styleName, this`sources, this`layers
      ensures styleName == name && sources == map[] && layers == map[]
    {
      styleName, sources, layers := name, map[], map[];
    }

    /** `on('style.load', k)`. */
    method OnStyleLoad(k: Continuation)
      modifies this`pending
      ensures pending == old(pending) + [k]
    {
      pending := pending + [k];
    }

    /** The continuations to run now that the style has loaded. */
    method TakePending() returns (ks: seq<Continuation>)
      modifies this`pending
      ensures ks == old(pending) && pending == []
    {
      ks, pending := pending, [];
    }
  }
}
