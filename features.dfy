/** The feature builder (`parseFeatures`) and the label projection of the map
    component: records plus selection and display flags become a feature list
    and an error-id list, and every feature becomes one label point. */
module FeatureBuilder {
  import opened Geo

  /** What `parseFeatures` reads: every record of the table, the records that
      pass the current view's filter, the selection, the edit-mode flag, the
      state of the labels switch and the show-colours flag. */
  datatype Props = Props(
    allRecords: seq<Record>,
    records: seq<Record>,
    selectedRecordIds: seq<Id>,
    editMode: bool,
    labelsOn: bool,
    showColors: bool)

  /** The outcome of one pass: the features, in record order, and the ids of
      the records whose geometry could not be turned into a feature. */
  datatype Built = Built(features: seq<Feature>, errors: seq<Id>)

  /** The record's geometry cell is truthy: only such records are considered. */
  predicate HasGeometryCell(r: Record) {
    r.geometryCell != ""
  }

  /** The record is the one being edited: a single selected id, edit mode on. */
  predicate IsEdited(p: Props, id: Id) {
    |p.selectedRecordIds| == 1 && p.editMode && p.selectedRecordIds[0] == id
  }

  /** The colour a feature gets from its view, when colours are shown and the
      lookup returns a non-empty colour; a throwing lookup gives none. */
  function ViewColor(p: Props, rec: Record): (c: Option<string>)
    ensures c.Some? <==> p.showColors && rec.viewColor.ColorHex? && rec.viewColor.hex != ""
    ensures c.Some? ==> c.value == rec.viewColor.hex
  {
    if !p.showColors then None
    else match rec.viewColor
      case ColorThrows => None
      case ColorHex(hex) => if hex != "" then Some(hex) else None
  }

  /** The body of the per-record callback of `parseFeatures`: `None` when the
      geometry does not parse or `findPoint` throws for it (the record then
      goes to the error list). */
  function BuildFeature(rec: Record, p: Props, parse: string -> Option<Geometry>,
                        anchor: Geometry -> Option<Point>): (r: Option<Feature>)
    ensures r.Some? <==> ParseCell(rec.geometryCell, parse).Some? && anchor(ParseCell(rec.geometryCell, parse).value).Some?
    ensures r.Some? ==>
      var g := ParseCell(rec.geometryCell, parse).value;
      && r.value.id == rec.id
      && r.value.geometry == g
      && r.value.properties.id == rec.id
      && r.value.properties.labelPoint == anchor(g).value
      && (r.value.properties.selected <==> rec.id in p.selectedRecordIds)
      && (r.value.properties.invisible <==> IsEdited(p, rec.id))
      && r.value.properties.name == (if p.labelsOn then rec.labelCell else "")
      && (rec.id !in Ids(p.records) ==> r.value.properties.color == Some(MutedColor))
      && (rec.id in Ids(p.records) ==> r.value.properties.color == ViewColor(p, rec))
  {
    match ParseCell(rec.geometryCell, parse)
    case None => None
    case Some(g) =>
      match anchor(g)
      case None => None
      case Some(pt) =>
        var color := if rec.id in Ids(p.records) then ViewColor(p, rec) else Some(MutedColor);
        var name := if p.labelsOn then rec.labelCell else "";
        Some(Feature(rec.id, g, Properties(rec.id, name, rec.id in p.selectedRecordIds,
                                           IsEdited(p, rec.id), pt, color)))
  }

  /** `parseFeatures` over the records `rs`, as a specification. */
  function Build(rs: seq<Record>, p: Props, parse: string -> Option<Geometry>,
                 anchor: Geometry -> Option<Point>): Built
  {
    if rs == [] then Built([], [])
    else
      var prev := Build(rs[..|rs| - 1], p, parse, anchor);
      var rec := rs[|rs| - 1];
      if !HasGeometryCell(rec) then prev
      else match BuildFeature(rec, p, parse, anchor)
        case Some(f) => Built(prev.features + [f], prev.errors)
        case None => Built(prev.features, prev.errors + [rec.id])
  }

  /** The loop of `parseFeatures`: the features and the error ids it pushes,
      in record order. */
  method BuildAll(p: Props, parse: string -> Option<Geometry>, anchor: Geometry -> Option<Point>)
    returns (features: seq<Feature>, errors: seq<Id>)
    ensures Built(features, errors) == Build(p.allRecords, p, parse, anchor)
  {
    features, errors := [], [];
    var i := 0;
    while i < |p.allRecords|
      invariant 0 <= i <= |p.allRecords|
      invariant Built(features, errors) == Build(p.allRecords[..i], p, parse, anchor)
    {
      var rec := p.allRecords[i];
      assert p.allRecords[..i + 1][..i] == p.allRecords[..i];
      if HasGeometryCell(rec) {
        match BuildFeature(rec, p, parse, anchor)
        case Some(f) =>
          features := features + [f];
        case None =>
          errors := errors + [rec.id];
      }
      i := i + 1;
    }
    assert p.allRecords[..i] == p.allRecords;
  }

  /** Number of records with a truthy geometry cell. */
  function CountWithGeometry(rs: seq<Record>): nat {
    if rs == [] then 0
    else CountWithGeometry(rs[..|rs| - 1]) + (if HasGeometryCell(rs[|rs| - 1]) then 1 else 0)
  }

  /** Every record with a geometry cell yields one feature or one error id,
      and records with an empty cell yield neither. */
  lemma {:induction false} BuildCounts(rs: seq<Record>, p: Props, parse: string -> Option<Geometry>,
                                       anchor: Geometry -> Option<Point>)
    ensures |Build(rs, p, parse, anchor).features| + |Build(rs, p, parse, anchor).errors| == CountWithGeometry(rs)
  {
    if rs != [] {
      BuildCounts(rs[..|rs| - 1], p, parse, anchor);
    }
  }

  /** Building is order-preserving: the result for `a + b` is the result for
      `a` followed by the result for `b`. */
  lemma {:induction false} BuildAppend(a: seq<Record>, b: seq<Record>, p: Props,
                                       parse: string -> Option<Geometry>, anchor: Geometry -> Option<Point>)
    ensures Build(a + b, p, parse, anchor).features
         == Build(a, p, parse, anchor).features + Build(b, p, parse, anchor).features
    ensures Build(a + b, p, parse, anchor).errors
         == Build(a, p, parse, anchor).errors + Build(b, p, parse, anchor).errors
  {
    if b == [] {
      assert a + b == a;
    } else {
      var b' := b[..|b| - 1];
      assert (a + b)[..|a + b| - 1] == a + b';
      assert (a + b)[|a + b| - 1] == b[|b| - 1];
      BuildAppend(a, b', p, parse, anchor);
    }
  }

  /** Some record among `rs` has the id and a geometry cell, and building it
      succeeds (`ok`) or fails (`!ok`). */
  predicate BuiltFrom(rs: seq<Record>, p: Props, parse: string -> Option<Geometry>,
                      anchor: Geometry -> Option<Point>, id: Id, ok: bool) {
    exists i :: 0 <= i < |rs| && rs[i].id == id && HasGeometryCell(rs[i])
                && BuildFeature(rs[i], p, parse, anchor).Some? == ok
  }

  lemma BuiltFromSnoc(rs: seq<Record>, p: Props, parse: string -> Option<Geometry>,
                      anchor: Geometry -> Option<Point>, id: Id, ok: bool)
    requires rs != []
    ensures BuiltFrom(rs, p, parse, anchor, id, ok) <==>
            || BuiltFrom(rs[..|rs| - 1], p, parse, anchor, id, ok)
            || (&& rs[|rs| - 1].id == id && HasGeometryCell(rs[|rs| - 1])
                && BuildFeature(rs[|rs| - 1], p, parse, anchor).Some? == ok)
  {
    var init := rs[..|rs| - 1];
    if BuiltFrom(rs, p, parse, anchor, id, ok) {
      var i :| 0 <= i < |rs| && rs[i].id == id && HasGeometryCell(rs[i])
               && BuildFeature(rs[i], p, parse, anchor).Some? == ok;
      if i < |init| {
        assert init[i] == rs[i];
      }
    }
    if BuiltFrom(init, p, parse, anchor, id, ok) {
      var i :| 0 <= i < |init| && init[i].id == id && HasGeometryCell(init[i])
               && BuildFeature(init[i], p, parse, anchor).Some? == ok;
      assert rs[i] == init[i];
    }
  }

  lemma {:induction false} BuildFeatureIds(rs: seq<Record>, p: Props, parse: string -> Option<Geometry>,
                                           anchor: Geometry -> Option<Point>, id: Id)
    ensures id in FeatureIds(Build(rs, p, parse, anchor).features) <==> BuiltFrom(rs, p, parse, anchor, id, true)
  {
    if rs != [] {
      var init := rs[..|rs| - 1];
      BuildFeatureIds(init, p, parse, anchor, id);
      BuiltFromSnoc(rs, p, parse, anchor, id, true);
      var prev := Build(init, p, parse, anchor);
      var rec := rs[|rs| - 1];
      if HasGeometryCell(rec) && BuildFeature(rec, p, parse, anchor).Some? {
        var f := BuildFeature(rec, p, parse, anchor).value;
        assert FeatureIds(prev.features + [f]) == FeatureIds(prev.features) + [rec.id];
      }
    }
  }

  lemma {:induction false} BuildErrorIds(rs: seq<Record>, p: Props, parse: string -> Option<Geometry>,
                                         anchor: Geometry -> Option<Point>, id: Id)
    ensures id in Build(rs, p, parse, anchor).errors <==> BuiltFrom(rs, p, parse, anchor, id, false)
  {
    if rs != [] {
      BuildErrorIds(rs[..|rs| - 1], p, parse, anchor, id);
      BuiltFromSnoc(rs, p, parse, anchor, id, false);
    }
  }

  /** An id is among the features exactly when some record with that id has a
      geometry cell that builds, and among the errors exactly when some record
      with that id has a geometry cell that does not. */
  lemma BuildMembership(rs: seq<Record>, p: Props, parse: string -> Option<Geometry>,
                        anchor: Geometry -> Option<Point>, id: Id)
    ensures id in FeatureIds(Build(rs, p, parse, anchor).features) <==>
            exists i :: 0 <= i < |rs| && rs[i].id == id && HasGeometryCell(rs[i])
                        && BuildFeature(rs[i], p, parse, anchor).Some?
    ensures id in Build(rs, p, parse, anchor).errors <==>
            exists i :: 0 <= i < |rs| && rs[i].id == id && HasGeometryCell(rs[i])
                        && BuildFeature(rs[i], p, parse, anchor).None?
  {
    BuildFeatureIds(rs, p, parse, anchor, id);
    BuildErrorIds(rs, p, parse, anchor, id);
  }

  /** The partition property: when record ids are distinct, every record with
      a geometry cell has its id in exactly one of the feature list and the
      error list, and a record with an empty cell in neither. */
  lemma BuildPartition(rs: seq<Record>, p: Props, parse: string -> Option<Geometry>,
                       anchor: Geometry -> Option<Point>)
    requires forall i, j :: 0 <= i < j < |rs| ==> rs[i].id != rs[j].id
    ensures forall i :: 0 <= i < |rs| && HasGeometryCell(rs[i]) ==>
      (rs[i].id in FeatureIds(Build(rs, p, parse, anchor).features)) != (rs[i].id in Build(rs, p, parse, anchor).errors)
    ensures forall i :: 0 <= i < |rs| && !HasGeometryCell(rs[i]) ==>
      rs[i].id !in FeatureIds(Build(rs, p, parse, anchor).features) && rs[i].id !in Build(rs, p, parse, anchor).errors
  {
    forall i | 0 <= i < |rs|
      ensures HasGeometryCell(rs[i]) ==>
        (rs[i].id in FeatureIds(Build(rs, p, parse, anchor).features)) != (rs[i].id in Build(rs, p, parse, anchor).errors)
      ensures !HasGeometryCell(rs[i]) ==>
        rs[i].id !in FeatureIds(Build(rs, p, parse, anchor).features) && rs[i].id !in Build(rs, p, parse, anchor).errors
    {
      BuildMembership(rs, p, parse, anchor, rs[i].id);
    }
  }

  /** Every feature in the result is the feature built from one of the
      records, so it carries that record's id and flags. */
  lemma {:induction false} BuildOrigin(rs: seq<Record>, p: Props, parse: string -> Option<Geometry>,
                                       anchor: Geometry -> Option<Point>, j: nat)
    requires j < |Build(rs, p, parse, anchor).features|
    ensures exists i :: 0 <= i < |rs| && HasGeometryCell(rs[i])
                        && BuildFeature(rs[i], p, parse, anchor) == Some(Build(rs, p, parse, anchor).features[j])
  {
    var init := rs[..|rs| - 1];
    var prev := Build(init, p, parse, anchor).features;
    var fs := Build(rs, p, parse, anchor).features;
    var last := |rs| - 1;
    if j < |prev| {
      assert fs[j] == prev[j];
      BuildOrigin(init, p, parse, anchor, j);
      var i :| 0 <= i < |init| && HasGeometryCell(init[i])
               && BuildFeature(init[i], p, parse, anchor) == Some(prev[j]);
      assert init[i] == rs[i];
    } else {
      assert HasGeometryCell(rs[last]) && BuildFeature(rs[last], p, parse, anchor) == Some(fs[j]);
    }
  }

  /** The field rules of `parseFeatures`, stated of the whole feature list:
      `selected` iff the id is selected, `invisible` iff it is the one record
      under edit, `name` per the labels switch, and the muted colour for every
      record outside the filtered list (otherwise the view colour, if any). */
  lemma FeatureFlags(p: Props, parse: string -> Option<Geometry>, anchor: Geometry -> Option<Point>)
    ensures forall f :: f in Build(p.allRecords, p, parse, anchor).features ==>
      && f.properties.id == f.id
      && (f.properties.selected <==> f.id in p.selectedRecordIds)
      && (f.properties.invisible <==> IsEdited(p, f.id))
      && (f.id !in Ids(p.records) ==> f.properties.color == Some(MutedColor))
      && (!p.labelsOn ==> f.properties.name == "")
  {
    var fs := Build(p.allRecords, p, parse, anchor).features;
    forall f | f in fs
      ensures && f.properties.id == f.id
              && (f.properties.selected <==> f.id in p.selectedRecordIds)
              && (f.properties.invisible <==> IsEdited(p, f.id))
              && (f.id !in Ids(p.records) ==> f.properties.color == Some(MutedColor))
              && (!p.labelsOn ==> f.properties.name == "")
    {
      var j :| 0 <= j < |fs| && fs[j] == f;
      BuildOrigin(p.allRecords, p, parse, anchor, j);
      var i :| 0 <= i < |p.allRecords| && HasGeometryCell(p.allRecords[i])
               && BuildFeature(p.allRecords[i], p, parse, anchor) == Some(fs[j]);
    }
  }

  /** The label point of one feature. */
  function LabelOf(f: Feature): Label {
    Label(f.properties.labelPoint, f.properties.id, f.properties.name, f, f.properties.selected)
  }

  /** The `labels` projection: one label per feature, in the same order, at
      the feature's label point, carrying its id, name, selected flag and the
      feature itself. */
  function Labels(fs: seq<Feature>): (ls: seq<Label>)
    ensures |ls| == |fs|
    ensures forall i :: 0 <= i < |fs| ==>
      && ls[i].coordinates == fs[i].properties.labelPoint
      && ls[i].id == fs[i].properties.id
      && ls[i].name == fs[i].properties.name
      && ls[i].selected == fs[i].properties.selected
      && ls[i].original == fs[i]
  {
    if fs == [] then [] else Labels(fs[..|fs| - 1]) + [LabelOf(fs[|fs| - 1])]
  }

  /** The features carried by a list of labels. */
  function Originals(ls: seq<Label>): (fs: seq<Feature>)
    ensures |fs| == |ls|
  {
    if ls == [] then [] else Originals(ls[..|ls| - 1]) + [ls[|ls| - 1].original]
  }

  /** The projection loses nothing: the labels carry back exactly the feature
      list they were made from. */
  lemma {:induction false} LabelsCarryFeatures(fs: seq<Feature>)
    ensures Originals(Labels(fs)) == fs
  {
    if fs != [] {
      var init := fs[..|fs| - 1];
      LabelsCarryFeatures(init);
      assert Labels(fs)[..|fs| - 1] == Labels(init);
    }
  }
}
