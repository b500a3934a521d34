/** The viewport zoom decision (`tryZooming`): whether the map fits itself to
    the selection. */
module Viewport {
  import opened Geo
  import opened FeatureBuilder

  /** `getRecordsById(records, ids)`: the records of the filtered list whose
      id is among `ids`. */
  function RecordsById(records: seq<Record>, ids: seq<Id>): (r: seq<Record>)
    ensures forall x :: x in r <==> x in records && x.id in ids
  {
    if records == [] then []
    else
      var last := records[|records| - 1];
      RecordsById(records[..|records| - 1], ids) + (if last.id in ids then [last] else [])
  }

  /** `.filter(record => record.getCellValue(geometryField))`. */
  function WithGeometry(rs: seq<Record>): (r: seq<Record>)
    ensures forall x :: x in r <==> x in rs && HasGeometryCell(x)
  {
    if rs == [] then []
    else
      var last := rs[|rs| - 1];
      WithGeometry(rs[..|rs| - 1]) + (if HasGeometryCell(last) then [last] else [])
  }

  /** `tryZooming(initialized)`: `true` when `zoomSelected` is called. No zoom
      without features or in edit mode, none when a non-empty selection has
      no record with geometry, and otherwise a zoom on the first pass or for a
      non-empty selection, so clearing the selection never moves the map. */
  function TryZooming(featureCount: nat, editMode: bool, selectedRecordIds: seq<Id>,
                      records: seq<Record>, initialized: bool): (zoom: bool)
    ensures zoom <==>
      && featureCount > 0
      && !editMode
      && (if |selectedRecordIds| > 0
          then exists r :: r in records && r.id in selectedRecordIds && HasGeometryCell(r)
          else !initialized)
  {
    if featureCount == 0 || editMode then false
    else if |selectedRecordIds| > 0 then
      var candidates := WithGeometry(RecordsById(records, selectedRecordIds));
      if candidates == [] then false
      else
        assert candidates[0] in candidates;
        true
    else !initialized
  }

  /** Clearing the selection of an initialised map never zooms. */
  lemma DeselectionNeverZooms(featureCount: nat, editMode: bool, records: seq<Record>)
    ensures !TryZooming(featureCount, editMode, [], records, true)
  {
  }

  /** A selection whose records all lack geometry never zooms. */
  lemma NoGeometryNoZoom(featureCount: nat, editMode: bool, selectedRecordIds: seq<Id>,
                         records: seq<Record>, initialized: bool)
    requires |selectedRecordIds| > 0
    requires forall r :: r in records && r.id in selectedRecordIds ==> !HasGeometryCell(r)
    ensures !TryZooming(featureCount, editMode, selectedRecordIds, records, initialized)
  {
  }
}
