# Polygon mapper map component, modelled in Dafny

This project models the synchronisation core of an Airtable extension that
draws records as polygons on a Mapbox map. The map component turns records into
GeoJSON-like features, publishes one label point per feature on a clustered
`labels` source, and reconciles the labels the engine renders outside clusters
back into the `places` source. It decides when the viewport fits the selection,
drives a polygon editor for the one record being edited, and turns map clicks
into record selections. It also switches between four basemap backdrops. Some
need a destructive style reload, after which sources and layers are re-added
on `style.load`; the others only toggle layer visibility. The source setup
(`addSources`) adds the map's sources to the engine's source table.

The engine is modelled as a class `Engine.MapEngine` with four fields: a source
table, a layer table with a visibility per layer, the name of the current style,
and the `style.load` continuations that are registered but have not run yet.
Each operation that changes it is a method. Each method is proved equal to a
function on an `Engine.EngineState` snapshot. The properties are proved about
those functions.

Files, one module each:

- geo.dfy (`Geo`): records, geometries, features, labels, and the parsing of a geometry cell.
- features.dfy (`FeatureBuilder`): `parseFeatures` as the function `Build` and the loop `BuildAll`, plus the label projection.
- reconcile.dfy (`LabelReconciler`): `updateMapPolygons`, which drops clusters, keeps the first item per id, decodes, and publishes.
- zoom.dfy (`Viewport`): the `tryZooming` decision.
- editsession.dfy (`EditSession`): the polygon editor, the edit-mode effect's outcome, and the click handlers.
- engine.dfy (`Engine`): the engine's tables and primitive operations.
- sources.dfy (`SourceSetup`): `addSources`.
- backdrop.dfy (`Backdrop`): the radio handlers, `addLayers`/`addStructures`/`addWhiteLayer`/`setStructureLabels`, and the `style.load` continuations.
- mapbox.dfy (`MapBoxComponent`): the component state (features, `initialized`, error ids, the `map` prop, the editor, the map type) and its effects.
- imageoverlay.dfy (`ImageOverlay`): the `ImageSourceRecords` change gate.

Behaviour of the code that the model keeps as written:

- An edit session starts only if the selected record is also in the filtered `records` list. Otherwise reading its cell throws and the editor is switched off. An empty geometry cell leaves the editor on but empty, rather than editing a feature.
- A record also goes to the error list when `findPoint` throws for its geometry, not only when its geometry fails to parse.
- Under the `setStyle` assumption listed in Left out, after a reload every backdrop layer is recreated hidden. No overlay visibility is carried over, except that the Structures continuation shows the structure layers again.
- Under the `setStyle` assumption listed in Left out, the Histogenes handler stops when `admin_str` is missing, as it is while a reload is still loading. So it does not hide `white-map` in that state.
- `Backdrop.ClickThenSettle` proves that one click on a settled engine, followed by the load it starts, shows exactly the clicked backdrop. It takes each `style.load` continuation to run once; the handlers as written keep them registered (see Findings).
- Two reload-requiring clicks before the style loads leave two continuations pending, and both run on the one `style.load`. The second throws when it re-adds the sources.
- A deselection does zoom when the map is not yet initialised, for example after the active view changed. The "deselection never zooms" promise holds for an initialised map.

## Model

| member | source | states |
|---|---|---|
| `Geo.ParseCell` | frontend/components/MapBox.js:67 | An empty cell reads as a null geometry and is not an error. Any other cell is the parser's result, failure included. |
| `FeatureBuilder.ViewColor` | frontend/components/MapBox.js:81-90 | A view colour exists iff colours are shown and the lookup returns a non-empty colour. A lookup that throws gives no colour. |
| `FeatureBuilder.BuildFeature` | frontend/components/MapBox.js:64-100 | A feature is built iff the geometry parses and `findPoint` returns a point without throwing. `selected` holds iff the id is selected. `invisible` holds iff the record is the single one being edited. `name` is the label cell only when labels are on. A record outside the filtered list gets `#878787`; any other record gets its view colour. |
| `FeatureBuilder.BuildAll` | frontend/components/MapBox.js:59-101 | The loop over `allRecords` yields exactly the features and error ids of the specification `Build`. |
| `FeatureBuilder.BuildCounts` | frontend/components/MapBox.js:63-101 | The features plus the error ids number exactly the records with a truthy geometry cell. |
| `FeatureBuilder.BuildAppend` | frontend/components/MapBox.js:63-101 | Building a concatenation concatenates the results, so features and errors keep the order of `allRecords`. |
| `FeatureBuilder.BuildMembership` | frontend/components/MapBox.js:63-101 | An id is among the features iff some record with that id has a truthy cell and builds. It is among the errors iff some such record fails to build. |
| `FeatureBuilder.BuildPartition` | frontend/components/MapBox.js:63-101 | With distinct ids, each record with a truthy cell is in exactly one of features and errors. Each record with an empty cell is in neither. |
| `FeatureBuilder.BuildOrigin` | frontend/components/MapBox.js:63-101 | Every feature is the build result of some record with a truthy cell. |
| `FeatureBuilder.FeatureFlags` | frontend/components/MapBox.js:61-94 | For every built feature: the id flags, `selected` iff selected, `invisible` iff it is the edited record, the muted colour outside the filtered list, and an empty name with labels off. |
| `FeatureBuilder.Labels` | frontend/components/MapBox.js:156-170 | One label per feature, in order. Each label sits at the feature's `labelPoint` and carries its id, name, `selected` and the feature itself. |
| `FeatureBuilder.LabelsCarryFeatures` | frontend/components/MapBox.js:156-170 | The originals carried by the labels are exactly the feature list. |
| `LabelReconciler.Unclustered` | frontend/components/MapBox.js:314 | Keeps exactly the items with no top-level id (or the falsy id 0). |
| `LabelReconciler.UnclusteredAppend` | frontend/components/MapBox.js:314 | The filter keeps the input order: filtering a concatenation gives the filtered parts, concatenated. |
| `LabelReconciler.UnclusteredFront` | frontend/components/MapBox.js:314 | Filtering a non-empty list keeps its head iff the head is unclustered, then filters the rest. |
| `LabelReconciler.UnclusteredFirst` | frontend/components/MapBox.js:314-315 | The index in the engine's list of the first unclustered item with the id, or -1 when no unclustered item has it. |
| `LabelReconciler.UnclusteredFirstIndex` | frontend/components/MapBox.js:314-315 | An id is in the filtered list iff an unclustered item has it. Its first item there is the engine's first unclustered item with that id. |
| `LabelReconciler.UnclusteredFirstOrder` | frontend/components/MapBox.js:314-315 | Of two ids in the filtered list, the one found first there is the one whose first unclustered item comes first in the engine's list. |
| `LabelReconciler.FirstIndex` | frontend/components/MapBox.js:315 | The first index holding the id, or -1 when no item has it. |
| `LabelReconciler.DedupSpec` | frontend/components/MapBox.js:315 | The deduplicated list has no two items with the same id. Every kept item is the first occurrence of its id. Items keep their input order, and every input id is represented. |
| `LabelReconciler.KeepFirstDistinct` | frontend/components/MapBox.js:315 | On a list whose ids are already distinct, deduplication changes nothing. |
| `LabelReconciler.DecodeAll` | frontend/components/MapBox.js:316 | Decoding succeeds iff every `original` decodes. The result lists the decoded features index by index. |
| `LabelReconciler.ReconcileSpec` | frontend/components/MapBox.js:311-324 | The output holds one feature per distinct id among the unclustered items: the decoded original of the first unclustered item with that id. The features follow the order of those first items in the engine's list. Every unclustered id is represented. |
| `LabelReconciler.ReconciledItems` | frontend/components/MapBox.js:314-315 | The two filters keep, for each distinct unclustered id, the engine's first unclustered item with that id. These items follow the engine's order, and no unclustered id is missing. |
| `LabelReconciler.FiltersKeepDistinct` | frontend/components/MapBox.js:314-315 | Items with no top-level id and distinct ids pass both filters unchanged. |
| `LabelReconciler.ReconcileLabels` | frontend/components/MapBox.js:311-320 | Take the labels published for features with distinct ids, rendered without clustering, where decoding inverts the serialisation of each of those features. They reconcile back to exactly the feature list. |
| `LabelReconciler.UpdateMapPolygons` | frontend/components/MapBox.js:311-324 | `places` receives the reconciled features iff the query, the decoding and the source all succeed. On any failure the source table is left unchanged. |
| `SourceSetup.SetUp` | frontend/map/addSources.js:6-54 | The setup completes iff the terrain and composite ids are free. Existing sources are kept. On success the table gains exactly the five ids, each absent one with its default. When it throws, the ids become the old ones plus streets, places and terrain: a free terrain id gets the terrain default, and composite and `labels` are not added. Streets and places are always present afterwards. `labels` is the only newly added clustered source (maximum zoom 14, radius 25). |
| `SourceSetup.SetUpTwice` | frontend/map/addSources.js:8-37 | Running again on its own result changes no source. The guarded additions find their ids taken, and the unconditional terrain addition is refused. |
| `SourceSetup.SetUpAfterReload` | frontend/map/addSources.js:6-54 | On the empty table left by a reload, the setup completes and leaves exactly the five sources, with `labels` the only clustered one. |
| `SourceSetup.AddSources` | frontend/map/addSources.js:6-54 | The sequence of guarded and unguarded `addSource` calls leaves the table and completion flag of `SetUp`. |
| `Viewport.RecordsById` | frontend/components/MapBox.js:349 | The records whose id is among the selected ids. |
| `Viewport.WithGeometry` | frontend/components/MapBox.js:349-350 | The records with a truthy geometry cell. |
| `Viewport.TryZooming` | frontend/components/MapBox.js:342-360 | It zooms iff: there are features, edit mode is off, and either some selected filtered record has geometry, or the selection is empty and the map is not yet initialised. |
| `Viewport.DeselectionNeverZooms` | frontend/components/MapBox.js:356-359 | An initialised map with an empty selection never zooms. |
| `Viewport.NoGeometryNoZoom` | frontend/components/MapBox.js:347-354 | A non-empty selection none of whose records has geometry never zooms. |
| `EditSession.PolygonEditor.Toggle` | frontend/components/MapBox.js:178 | Switching the editor on or off leaves it in that state with no features. |
| `EditSession.PolygonEditor.Add` | frontend/components/MapBox.js:187 | Adding appends the feature to the editor. |
| `EditSession.FindRecord` | frontend/components/MapBox.js:179 | `None` iff no record has the id. Otherwise it returns the first record with that id. |
| `EditSession.EditOutcome` | frontend/components/MapBox.js:172-197 | The editor ends on iff: exactly one id is selected, edit mode is on, the record is in the filtered list and its cell parses. Otherwise it ends off and empty. It holds at most one feature: the clock-stamped geometry, only when that geometry is not null. |
| `EditSession.ClickCalls` | frontend/components/MapBox.js:110-138 | At most one call, and none while drawing. A record is selected iff a `places-fill` feature is hit, nothing is being drawn, and no `mapbox-gl-draw-` source is under the cursor while the editor is on. Then it is the first hit's record. A deselection happens iff nothing of `places-fill` is hit, nothing is drawn and the editor is off. |
| `Backdrop.StructureLabels` | frontend/components/MapBox.js:415-420 | Every existing structure layer gets the same visibility. No other layer changes, and no layer is added. |
| `Backdrop.WithStructures` | frontend/components/MapBox.js:460-515 | The four structure layers exist afterwards, each a hidden layer on `mapbox-streets`. Other layers are unchanged. |
| `Backdrop.WithWhiteLayer` | frontend/components/MapBox.js:446-458 | `white-map` exists afterwards, hidden. Other layers are unchanged. |
| `Backdrop.WithLayersHidesBackdrops` | frontend/components/MapBox.js:422-444 | After `addLayers` all five backdrop layers exist and are hidden, and `labels-text` is shown. Other layers are unchanged. |
| `Backdrop.SetStructureLabels` | frontend/components/MapBox.js:415-420 | The four `setLayoutProperty` calls leave the layer table of `StructureLabels`. |
| `Backdrop.AddStructures` | frontend/components/MapBox.js:460-515 | The remove-and-add pairs leave the layer table of `WithStructures`. |
| `Backdrop.AddWhiteLayer` | frontend/components/MapBox.js:446-458 | The remove-and-add pair leaves the layer table of `WithWhiteLayer`. |
| `Backdrop.AddLayers` | frontend/components/MapBox.js:422-444 | The calls leave the layer table of `WithLayers`. |
| `Backdrop.OnOutdoorClick` | frontend/components/MapBox.js:233-244 | The engine ends in the state given by the Outdoor transition. |
| `Backdrop.OnHistogenesClick` | frontend/components/MapBox.js:247-261 | The engine ends in the state given by the Histogenes transition, including the early stop on a missing `admin_str`. |
| `Backdrop.OnStructuresClick` | frontend/components/MapBox.js:264-279 | The engine ends in the state given by the Structures transition. |
| `Backdrop.OnWhiteClick` | frontend/components/MapBox.js:282-285 | The engine ends in the state given by the White transition. |
| `Backdrop.Continue` | frontend/components/MapBox.js:267-274 | A continuation runs `addSources`, stopping if it throws, then `addLayers`. For Structures it also shows the structure layers and hides `white-map`. |
| `Backdrop.OnStyleLoad` | frontend/components/MapBox.js:236-241 | The loop runs the pending continuations in order, stopping at the first that throws, and leaves none pending. |
| `Backdrop.OnMapLoad` | frontend/components/MapBox.js:298-302 | The first `load` runs the source and layer setup. |
| `Backdrop.ReloadOnlyWhenStyleDiffers` | frontend/components/MapBox.js:233-285 | Each handler reloads, registering its continuation, exactly when the current style is not the one it needs. White never reloads. |
| `Backdrop.HandlersNeverAdd` | frontend/components/MapBox.js:233-285 | No handler adds a source or a layer. Re-adding happens only in a continuation. |
| `Backdrop.WhiteShowsWhite` | frontend/components/MapBox.js:282-285 | White shows `white-map`, hides every structure layer, and makes White the shown backdrop. |
| `Backdrop.OtherVariantsHideWhite` | frontend/components/MapBox.js:233-261 | Outdoor always leaves `white-map` hidden. Histogenes does too, unless a missing `admin_str` stopped it. |
| `Backdrop.ClickedConsistent` | frontend/components/MapBox.js:233-285 | Every handler keeps the structure layers uniform and never shows them together with `white-map`. |
| `Backdrop.StructureMapLoaded` | frontend/components/MapBox.js:400-402 | No answer iff `admin_str` is missing, where reading its visibility throws. Otherwise true iff `admin_str` is visible. |
| `Backdrop.WithLayersConsistent` | frontend/components/MapBox.js:422-458 | `addLayers` leaves consistent layers from any start, with or without the Structures follow-up. |
| `Backdrop.ContinuationConsistent` | frontend/components/MapBox.js:264-274 | A continuation keeps the layers consistent and registers nothing. |
| `Backdrop.RunAllConsistent` | frontend/components/MapBox.js:236-274 | Running any list of continuations keeps the layers consistent. |
| `Backdrop.StyleLoadedConsistent` | frontend/components/MapBox.js:233-285 | `style.load` keeps the layers consistent and leaves nothing pending. |
| `Backdrop.ReloadSettles` | frontend/components/MapBox.js:233-274 | After a reload from a settled engine, the load rebuilds the backdrop from empty tables. Every backdrop layer is hidden, except that Structures shows the structure layers with `white-map` hidden. |
| `Backdrop.ClickThenSettle` | frontend/components/MapBox.js:233-285 | From a settled engine, any click followed by the load it may have started is settled again and shows exactly the clicked backdrop. |
| `Backdrop.SecondContinuationThrows` | frontend/map/addSources.js:6-33 | On a freshly reloaded engine, a second continuation throws when it re-adds the terrain source. The layers stay as the first continuation left them. |
| `Backdrop.AsWrittenOutdoorLoads` | frontend/components/MapBox.js:233-243 | From mount, Outdoor and its load give the Outdoors style with fresh sources and rebuilt layers, and the Outdoor continuation stays registered. |
| `Backdrop.AsWrittenSwitchLosesStructures` | frontend/components/MapBox.js:233-274 | With the continuations kept registered, Outdoor and its load show Outdoor. Structures and its load then leave the structures hidden on the Histogenes style. |
| `Backdrop.SwitchShowsStructures` | frontend/components/MapBox.js:233-274 | With run-once continuations, the same two switches from mount show Structures. |
| `Backdrop.RapidClicksShowStructuresOnOutdoors` | frontend/components/MapBox.js:233-274 | From a settled Outdoors engine, Structures then Outdoor before the load leave the structures shown on the Outdoors style, which is not settled. |
| `Backdrop.FirstLoadReady` | frontend/components/MapBox.js:298-302 | The first `load` leaves a settled Histogenes backdrop with exactly the five sources. |
| `MapBoxComponent.MapBox.constructor` | frontend/components/MapBox.js:48-49 | The component starts with no features, not initialised, no error ids, an empty map type and an idle editor. |
| `MapBoxComponent.MapBox.ParseFeatures` | frontend/components/MapBox.js:59-107 | The feature state becomes the built features, and is replaced iff they differ from the old ones. The error ids are handed over on every pass. |
| `MapBoxComponent.MapBox.UpdateMap` | frontend/components/MapBox.js:327-340 | Without a map nothing happens. With one, `labels` receives the labels of the features. On the first such pass the zoom is decided as for a first synchronisation and the map becomes initialised. A missing `labels` source stops the call with nothing changed. |
| `MapBoxComponent.MapBox.EditEffect` | frontend/components/MapBox.js:172-197 | On an initialised map, the zoom is decided as for an initialised map and the editor ends as `EditOutcome` says. Before initialisation, nothing happens. |
| `MapBoxComponent.MapBox.ActiveViewChanged` | frontend/components/MapBox.js:199-203 | A view change marks the map not initialised. |
| `MapBoxComponent.MapBox.ChangeSwitched` | frontend/components/MapBox.js:411-413 | The map type becomes the changed radio's value. |
| `Geo.MapSeq` | frontend/components/MapBox.js:525-526 | `map` over a list gives one image per item, in order; the string forms of the image records are such a map. |
| `ImageOverlay.Gate` | frontend/components/MapBox.js:523-530 | The stored records take the new records' string forms. They are replaced only when those forms differ, and are otherwise kept. |
| `ImageOverlay.GateIdempotent` | frontend/components/MapBox.js:523-530 | Passing the same records through the gate twice changes nothing the second time. |
| `ImageOverlay.OverlayAction` | frontend/components/MapBox.js:532-538 | The overlay is updated from the records iff `show` is on, and removed otherwise. |
| `ImageOverlay.ImageSourceRecords.Render` | frontend/components/MapBox.js:517-538 | The stored records pass through the gate. The overlay effect acts iff it is the first render, the map type or `show` changed, or the stored records were replaced. |

## Left out

- The engine itself (Mapbox GL) is modelled only through its source table, layer table, style name and pending `style.load` continuations. The layers of the base styles, and the layers of `addPlacesLayers`, `addClustering` and `addHover`, are not part of this model. Their code is not available.
- `addEvents` and `parseFeatures` inside the `style.load` continuations are left out. The radio handlers and their continuations are created once, by the mount-only effect (frontend/components/MapBox.js:218-309), so they call the first render's `parseFeatures` and `addEvents`. After every reload-requiring switch, `features` is rebuilt from the first render's `allRecords`, `records`, `selectedRecordIds` and `editMode`, compared against that render's empty `features` (frontend/components/MapBox.js:48), and then published on `labels` by the `[features, map]` effect (frontend/components/MapBox.js:363-365). If the first render gave no features, `labels` and `places` stay empty until the props change. The model does not capture this: `MapBoxComponent.MapBox.ParseFeatures` models the current render's call, and after a reload `labels` holds the empty collection of `SourceSetup.SetUp`.
- Listener accumulation: the model's handlers and `Backdrop.OnStyleLoad` run each `style.load` continuation once, the corrected behaviour of the Findings row. The handlers as written keep every continuation registered; `Backdrop.StyleLoadedAsWritten` models that.
- Backdrop.ClickThenSettle: holds for run-once continuations. With the continuations kept registered as written, it holds only up to the first reload after mount (`Backdrop.AsWrittenSwitchLosesStructures`). Even with run-once continuations it needs a settled engine: two reload-requiring clicks before a load can leave the structures shown on the Outdoors style (`Backdrop.RapidClicksShowStructuresOnOutdoors`).
- EditSession.ClickCalls: "at most one call" holds per registration of the two click handlers. `addEvents` registers them again on every `style.load` continuation (frontend/components/MapBox.js:239, 253, 270), so after reloads one click calls `selectRecord` once per registration.
- Backdrop.OnOutdoorClick: the style name is taken to change, and the old sources and layers to be gone, when `setStyle` is called, not when the new style has loaded.
- Backdrop.OnHistogenesClick: the style name is taken to change when `setStyle` is called, as for Outdoor.
- Backdrop.OnStructuresClick: the style name is taken to change when `setStyle` is called, as for Outdoor.
- EditSession.PolygonEditor.Toggle: the editor library is not available. Toggling is assumed to empty the editor's feature list, and `isActive`/`isDrawing` are inputs to the click functions.
- `JSON.parse` of a geometry cell, `findPoint`, the decoding of a label's `original`, and `record.toString` are function parameters, with failure as `None`. `Date.now()` is the parameter `now`.
- `getRecordsById` is not part of this model. It is taken to return the records whose id is selected.
- `JSON.stringify` comparisons are modelled as value equality: of the feature lists in `parseFeatures`, and of the string lists in the image gate.
- The `labels-switch` state and the colour switch are boolean inputs. The label cell and the view colour lookup are record fields.
- ImageOverlay.ImageSourceRecords.Render: the render that replaces the stored records and the re-render it causes are one step. `updateImageSources` and `removeImageSources` are returned as actions, because their code is not available.
- `zoomSelected` is not part of this model. Only the decision to call it is modelled.
- The debounce timer and the `sourcedata`, `zoomend` and `moveend` triggers of the reconciler are left out. The query result is a parameter (`None` when the query throws).
- Map construction, the navigation control, the `move` handler's rounding, `polygonEditor.init`, unmount, the fill-opacity effect and the JSX are engine and UI plumbing, left out.
- An exception that escapes `updateMap` is modelled as the call stopping with nothing more changed. The effect it would break in React is not modelled.

## Findings

| source | as written | input that shows it | evidently intended | confidence | as-written member | corrected member |
|---|---|---|---|---|---|---|
| frontend/components/MapBox.js:233-274 | Each reloading radio click registers its `style.load` continuation with `map.on`, which keeps it. Every later load re-runs all earlier continuations first. The second of them throws when `addSources` re-adds the terrain source (frontend/map/addSources.js:28), so the newest one never runs. | From mount: click Outdoor and let the style load, then click Structures and let it load. The structure layers stay hidden on the Histogenes style. | Each continuation runs once, on the load its own click started (`map.once`). The clicked backdrop is then shown. | not executed; medium | `Backdrop.AsWrittenSwitchLosesStructures` (with `Backdrop.StyleLoadedAsWritten`) | `Backdrop.ClickThenSettle` and `Backdrop.SwitchShowsStructures` (with `Backdrop.StyleLoaded`) |
