/** The polygon edit session and the click handlers of the map component:
    when the editor is on and what it holds, and when a click selects or
    deselects a record. */
module EditSession {
  import opened Geo

  /** A feature handed to the polygon editor: a synthetic id taken from the
      clock, empty properties and the record's geometry. */
  datatype EditFeature = EditFeature(id: int, geometry: Geometry)

  /** The polygon editor's state as the component drives it: whether it is
      active and the features it holds. */
  class PolygonEditor {
    var active: bool
    var drawn: seq<EditFeature>

    constructor ()
      ensures !active && drawn == []
    {
      active, drawn := false, [];
    }

    /** `polygonEditor.toggle(map, on)`: switching on or off starts from an
        empty editor. */
    method Toggle(on: bool)
      modifies this
      ensures active == on && drawn == []
    {
      active, drawn := on, [];
    }

    /** `polygonEditor.add(feature)`. */
    method Add(f: EditFeature)
      modifies this`drawn
      ensures drawn == old(drawn) + [f]
    {
      drawn := drawn + [f];
    }
  }

  /** A snapshot of the editor. */
  datatype Session = Session(active: bool, drawn: seq<EditFeature>)

  /** `records.find(r => r.id === id)`: the first record with the id. */
  function FindRecord(records: seq<Record>, id: Id): (r: Option<Record>)
    ensures r.None? <==> forall x :: x in records ==> x.id != id
    ensures r.Some? ==> exists i :: 0 <= i < |records| && records[i] == r.value && r.value.id == id
                                    && forall j :: 0 <= j < i ==> records[j].id != id
  {
    if records == [] then None
    else if records[0].id == id then Some(records[0])
    else
      var r := FindRecord(records[1..], id);
      assert forall x :: x in records[1..] ==> x in records;
      assert r.Some? ==> forall j :: 0 <= j < |records[1..]| ==> records[1..][j] == records[j + 1];
      r
  }

  /** The editor state the edit-mode effect of an initialised map leaves: on,
      holding the selected record's geometry when it is not null, exactly
      when one record is selected in edit mode, it is in the filtered list
      and its geometry cell parses; off and empty otherwise. */
  function EditOutcome(selectedRecordIds: seq<Id>, editMode: bool, records: seq<Record>,
                       parse: string -> Option<Geometry>, now: int): (s: Session)
    ensures s.active <==>
      && |selectedRecordIds| == 1
      && editMode
      && FindRecord(records, selectedRecordIds[0]).Some?
      && ParseCell(FindRecord(records, selectedRecordIds[0]).value.geometryCell, parse).Some?
    ensures |s.drawn| <= 1
    ensures s.drawn != [] ==> s.active
    ensures s.active ==>
      var g := ParseCell(FindRecord(records, selectedRecordIds[0]).value.geometryCell, parse).value;
      s.drawn == if g == NullGeometry then [] else [EditFeature(now, g)]
  {
    if |selectedRecordIds| == 1 && editMode then
      match FindRecord(records, selectedRecordIds[0])
      case None => Session(false, [])
      case Some(rec) =>
        match ParseCell(rec.geometryCell, parse)
        case None => Session(false, [])
        case Some(g) => Session(true, if g != NullGeometry then [EditFeature(now, g)] else [])
    else Session(false, [])
  }

  /** Sources of the editor's own drawing carry this prefix. */
  const DrawSourcePrefix: string := "mapbox-gl-draw-"

  /** `source.substring(0, 15) === 'mapbox-gl-draw-'`. */
  predicate IsDrawSource(source: string) {
    (if |source| < 15 then source else source[..15]) == DrawSourcePrefix
  }

  /** A call the click handlers make to the host's `selectRecord`. */
  datatype SelectCall = Select(id: Id) | Deselect

  /** One click on the map: the ids of the `places-fill` features under the
      cursor and the sources of every rendered feature under it. */
  datatype Click = Click(placesHits: seq<Id>, renderedSources: seq<string>)

  /** The `places-fill` handler, which runs only when such a feature is hit:
      select its record unless drawing or clicking on a shape being drawn. */
  function PlacesFillClick(c: Click, editorActive: bool, drawing: bool): Option<Id>
    requires |c.placesHits| > 0
  {
    var isNewShape := editorActive && exists s :: s in c.renderedSources && IsDrawSource(s);
    if !drawing && !isNewShape then Some(c.placesHits[0]) else None
  }

  /** The map-wide handler: clear the selection when nothing of `places-fill`
      is hit, nothing is being drawn and the editor is off. */
  function MapClick(c: Click, editorActive: bool, drawing: bool): bool {
    !drawing && !editorActive && |c.placesHits| == 0
  }

  /** Both click handlers in their registration order: at most one call, a
      selection only of the record under the cursor and only when neither
      drawing nor on the editor's own shapes, a deselection only when no
      record is under the cursor, the editor is off and nothing is drawn. */
  function ClickCalls(c: Click, editorActive: bool, drawing: bool): (calls: seq<SelectCall>)
    ensures |calls| <= 1
    ensures drawing ==> calls == []
    ensures (exists id :: calls == [Select(id)]) <==>
      |c.placesHits| > 0 && !drawing && !(editorActive && exists s :: s in c.renderedSources && IsDrawSource(s))
    ensures forall id :: calls == [Select(id)] ==> id == c.placesHits[0]
    ensures calls == [Deselect] <==> |c.placesHits| == 0 && !drawing && !editorActive
  {
    // The `places-fill` handler fires only on a hit and the map-wide one
    // calls back only without one, so at most one of them calls.
    if |c.placesHits| > 0 then
      match PlacesFillClick(c, editorActive, drawing)
      case Some(id) => [Select(id)]
      case None => []
    else if MapClick(c, editorActive, drawing) then [Deselect]
    else []
  }
}
