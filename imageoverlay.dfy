/** `ImageSourceRecords`: the image overlay's copy of the image table's
    records, replaced only when their string forms change, and the overlay
    update or removal that follows. */
module ImageOverlay {
  import opened Geo

  /** `JSON.stringify(rs.map(r => r.toString()))`, up to the injective
      encoding of a list of strings. */
  function Texts(rs: seq<Record>, toText: Record -> string): seq<string> {
    MapSeq(rs, toText)
  }

  /** The stored records after the gate sees `records`. */
  function Gate(stored: seq<Record>, records: seq<Record>, toText: Record -> string): (r: seq<Record>)
    ensures Texts(r, toText) == Texts(records, toText)
    ensures r == stored || r == records
    ensures Texts(stored, toText) == Texts(records, toText) ==> r == stored
  {
    if Texts(stored, toText) != Texts(records, toText) then records else stored
  }

  /** Passing the same records through the gate twice changes nothing the
      second time. */
  lemma GateIdempotent(stored: seq<Record>, records: seq<Record>, toText: Record -> string)
    ensures Gate(Gate(stored, records, toText), records, toText) == Gate(stored, records, toText)
  {
  }

  /** What the overlay effect asks of the engine. */
  datatype Action = UpdateSources(records: seq<Record>) | RemoveSources

  /** The effect on the map type, the `show` toggle and the stored records. */
  function OverlayAction(records: seq<Record>, show: bool): (a: Action)
    ensures a.UpdateSources? <==> show
    ensures a.UpdateSources? ==> a.records == records
  {
    if show then UpdateSources(records) else RemoveSources
  }

  class ImageSourceRecords {
    /** The `sourceRecords` state. */
    var sourceRecords: seq<Record>
    /** The effect's dependencies at its last run, `None` before the first. */
    var lastDeps: Option<(string, bool)>

    constructor ()
      ensures sourceRecords == [] && lastDeps == None
    {
      sourceRecords, lastDeps := [], None;
    }

    /** One render with the image table's `records`, the `show` toggle and
        the map type, including the re-render a replaced record list causes:
        the overlay effect runs on the first render and whenever the map
        type, the toggle or the stored list changed. */
    method Render(records: seq<Record>, show: bool, mapType: string, toText: Record -> string)
      returns (action: Option<Action>)
      modifies this
      ensures sourceRecords == Gate(old(sourceRecords), records, toText)
      ensures lastDeps == Some((mapType, show))
      ensures action.Some? <==>
        || old(lastDeps) != Some((mapType, show))
        || Texts(old(sourceRecords), toText) != Texts(records, toText)
      ensures action.Some? ==> action.value == OverlayAction(records, show)
    {
      var replaced := false;
      if Texts(sourceRecords, toText) != Texts(records, toText) {
        sourceRecords := records;
        replaced := true;
      }
      action := None;
      if lastDeps != Some((mapType, show)) || replaced {
        action := Some(OverlayAction(records, show));
      }
      lastDeps := Some((mapType, show));
    }
  }
}
