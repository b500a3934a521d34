/** The map component's own state and the effects that drive it: the
    feature list with its change gate, the `initialized` flag with the first
    zoom, the edit-mode effect and the map-type radio value. */
module MapBoxComponent {
  import opened Geo
  import opened FeatureBuilder
  import opened Engine
  import opened Viewport
  import opened EditSession
  import opened SourceSetup

  class MapBox {
    /** The `features` state. */
    var features: seq<Feature>
    /** The `initialized` state. */
    var initialized: bool
    /** The list last handed to the host's `setJsonErrorRecords`. */
    var jsonErrorRecords: seq<Id>
    /** The `map` prop; `null` until the host has stored the engine. */
    var engine: MapEngine?
    /** The polygon editor the component drives. */
    const editor: PolygonEditor
    /** The value of the last map-type radio that changed. */
    var mapType: string

    constructor (engine: MapEngine?)
      ensures features == [] && !initialized && jsonErrorRecords == [] && mapType == ""
      ensures this.engine == engine
      ensures fresh(editor) && !editor.active && editor.drawn == []
    {
      features, initialized, jsonErrorRecords, mapType := [], false, [], "";
      this.engine := engine;
      editor := new PolygonEditor();
    }

    /** `parseFeatures()`: the feature state is replaced only when the new
        list differs, and the error ids are handed over on every pass. */
    method ParseFeatures(p: Props, parse: string -> Option<Geometry>, anchor: Geometry -> Option<Point>)
      returns (replaced: bool)
      modifies this`features, this`jsonErrorRecords
      ensures features == Build(p.allRecords, p, parse, anchor).features
      ensures jsonErrorRecords == Build(p.allRecords, p, parse, anchor).errors
      ensures replaced <==> features != old(features)
    {
      var fs, errs := BuildAll(p, parse, anchor);
      replaced := fs != features;
      if replaced {
        features := fs;
      }
      jsonErrorRecords := errs;
    }

    /** `updateMap()`: with a map, publish one label per feature on the
        `labels` source, and on the first pass decide the zoom and mark the
        map initialised. A missing `labels` source makes the call throw
        before any of that. */
    method UpdateMap(p: Props) returns (zoomed: bool)
      modifies this`initialized, engine
      ensures engine == null ==> initialized == old(initialized) && !zoomed
      ensures engine != null ==>
        var r := SetSourceData(old(engine.sources), LabelsId, LabelCollection(Labels(features)));
        && (r.None? ==> engine.Snapshot() == old(engine.Snapshot()) && initialized == old(initialized) && !zoomed)
        && (r.Some? ==> engine.Snapshot() == old(engine.Snapshot()).(sources := r.value) && initialized
                        && (zoomed <==> !old(initialized)
                                        && TryZooming(|features|, p.editMode, p.selectedRecordIds, p.records, false)))
    {
      zoomed := false;
      if engine == null {
        return;
      }
      var ok := engine.SetData(LabelsId, LabelCollection(Labels(features)));
      if !ok {
        return;
      }
      if !initialized {
        zoomed := TryZooming(|features|, p.editMode, p.selectedRecordIds, p.records, initialized);
        initialized := true;
      }
    }

    /** The effect on `editMode` and `selectedRecordIds`: on an initialised
        map, decide the zoom and start or stop the edit session; `now` is
        the clock reading used as the edit feature's id. */
    method EditEffect(p: Props, parse: string -> Option<Geometry>, now: int) returns (zoomed: bool)
      modifies editor
      ensures initialized ==>
        && zoomed == TryZooming(|features|, p.editMode, p.selectedRecordIds, p.records, true)
        && Session(editor.active, editor.drawn) == EditOutcome(p.selectedRecordIds, p.editMode, p.records, parse, now)
      ensures !initialized ==> !zoomed && editor.active == old(editor.active) && editor.drawn == old(editor.drawn)
    {
      zoomed := false;
      if !initialized {
        return;
      }
      zoomed := TryZooming(|features|, p.editMode, p.selectedRecordIds, p.records, initialized);
      if |p.selectedRecordIds| == 1 && p.editMode {
        editor.Toggle(true);
        var found := FindRecord(p.records, p.selectedRecordIds[0]);
        if found.None? {
          // Reading a cell of an undefined record throws.
          editor.Toggle(false);
          return;
        }
        var geometry := ParseCell(found.value.geometryCell, parse);
        if geometry.None? {
          editor.Toggle(false);
          return;
        }
        if geometry.value != NullGeometry {
          editor.Add(EditFeature(now, geometry.value));
        }
      } else {
        editor.Toggle(false);
      }
    }

    /** The effect on `activeView`: the next `updateMap` counts as a first
        pass again. */
    method ActiveViewChanged()
      modifies this`initialized
      ensures !initialized
    {
      if initialized {
        initialized := false;
      }
    }

    /** `changeSwitched`: a map-type radio changed to `value`. */
    method ChangeSwitched(value: string)
      modifies this`mapType
      ensures mapType == value
    {
      mapType := value;
    }
  }
}
