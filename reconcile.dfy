/** The label reconciler (`updateMapPolygons`): the label features the engine
    renders outside clusters are deduplicated by id, their original features
    decoded, and the result becomes the data of the `places` source. */
module LabelReconciler {
  import opened Geo
  import opened FeatureBuilder
  import opened Engine

  /** A feature of the clustered `labels` source as the engine reports it: a
      top-level id (cluster points carry one), the label's `properties.id` and
      its `properties.original`, which the engine hands back serialised. */
  datatype Rendered = Rendered(topId: Option<int>, id: Id, original: string)

  /** `!feature.id`: no top-level id, or the falsy id 0. */
  predicate IsUnclustered(r: Rendered) {
    r.topId.None? || r.topId.value == 0
  }

  /** The first filter: drop cluster points. */
  function Unclustered(s: seq<Rendered>): (u: seq<Rendered>)
    ensures |u| <= |s|
    ensures forall x :: x in u ==> x in s && IsUnclustered(x)
    ensures forall x :: x in s && IsUnclustered(x) ==> x in u
  {
    if s == [] then []
    else Unclustered(s[..|s| - 1]) + (if IsUnclustered(s[|s| - 1]) then [s[|s| - 1]] else [])
  }

  /** The filter keeps the input order: filtering a concatenation filters
      each part. */
  lemma {:induction false} UnclusteredAppend(a: seq<Rendered>, b: seq<Rendered>)
    ensures Unclustered(a + b) == Unclustered(a) + Unclustered(b)
  {
    if b != [] {
      var init := b[..|b| - 1];
      UnclusteredAppend(a, init);
      assert (a + b)[..|a + b| - 1] == a + init;
      assert (a + b)[|a + b| - 1] == b[|b| - 1];
    } else {
      assert a + b == a;
    }
  }

  /** The filter seen from the front of the list. */
  lemma UnclusteredFront(s: seq<Rendered>)
    requires s != []
    ensures Unclustered(s) == (if IsUnclustered(s[0]) then [s[0]] else []) + Unclustered(s[1..])
  {
    UnclusteredAppend([s[0]], s[1..]);
    assert [s[0]] + s[1..] == s;
    assert [s[0]][..0] == [];
  }

  /** The index in the unfiltered list of the first unclustered item with the
      id, or -1: where `findIndex` over the filtered list lands, counted in
      the engine's own list. */
  function UnclusteredFirst(s: seq<Rendered>, id: Id): (k: int)
    ensures -1 <= k < |s|
    ensures 0 <= k ==> IsUnclustered(s[k]) && s[k].id == id
                       && forall j :: 0 <= j < k && IsUnclustered(s[j]) ==> s[j].id != id
    ensures k == -1 ==> forall j :: 0 <= j < |s| && IsUnclustered(s[j]) ==> s[j].id != id
  {
    if s == [] then -1
    else if IsUnclustered(s[0]) && s[0].id == id then 0
    else
      var k := UnclusteredFirst(s[1..], id);
      if k == -1 then -1 else k + 1
  }

  /** `a.findIndex(t => t.properties.id === id)`: the first index holding the
      id, or -1. */
  function FirstIndex(s: seq<Rendered>, id: Id): (k: int)
    ensures -1 <= k < |s|
    ensures 0 <= k ==> s[k].id == id && forall j :: 0 <= j < k ==> s[j].id != id
    ensures k == -1 ==> forall j :: 0 <= j < |s| ==> s[j].id != id
  {
    if s == [] then -1
    else if s[0].id == id then 0
    else
      var k := FirstIndex(s[1..], id);
      if k == -1 then -1 else k + 1
  }

  /** The first item with the id in the filtered list is the first
      unclustered item with the id in the engine's list. */
  lemma {:induction false} UnclusteredFirstIndex(s: seq<Rendered>, id: Id)
    ensures (FirstIndex(Unclustered(s), id) == -1) <==> (UnclusteredFirst(s, id) == -1)
    ensures 0 <= FirstIndex(Unclustered(s), id) ==>
      Unclustered(s)[FirstIndex(Unclustered(s), id)] == s[UnclusteredFirst(s, id)]
  {
    if s != [] {
      UnclusteredFront(s);
      UnclusteredFirstIndex(s[1..], id);
      var u := Unclustered(s);
      var rest := Unclustered(s[1..]);
      var k := FirstIndex(rest, id);
      if IsUnclustered(s[0]) {
        assert u[1..] == rest;
        if s[0].id != id {
          assert FirstIndex(u, id) == if k == -1 then -1 else k + 1;
          assert k != -1 ==> u[k + 1] == rest[k];
        }
      } else {
        assert u == rest;
      }
    }
  }

  /** The filter keeps the order of first occurrences: of two ids present in
      the filtered list, the one found first there is found first in the
      engine's list. */
  lemma {:induction false} UnclusteredFirstOrder(s: seq<Rendered>, x: Id, y: Id)
    requires 0 <= FirstIndex(Unclustered(s), x) && 0 <= FirstIndex(Unclustered(s), y)
    ensures FirstIndex(Unclustered(s), x) < FirstIndex(Unclustered(s), y)
            <==> UnclusteredFirst(s, x) < UnclusteredFirst(s, y)
  {
    UnclusteredFirstIndex(s, x);
    UnclusteredFirstIndex(s, y);
    UnclusteredFront(s);
    var u := Unclustered(s);
    var rest := Unclustered(s[1..]);
    if IsUnclustered(s[0]) {
      assert u[1..] == rest;
      if s[0].id != x && s[0].id != y {
        UnclusteredFirstOrder(s[1..], x, y);
      }
    } else {
      assert u == rest;
      UnclusteredFirstOrder(s[1..], x, y);
    }
  }

  /** The second filter over the first `n` items: keep item `i` when the first
      index of its id in the whole list is `i`. */
  function KeepFirst(s: seq<Rendered>, n: nat): seq<Rendered>
    requires n <= |s|
  {
    if n == 0 then []
    else KeepFirst(s, n - 1) + (if FirstIndex(s, s[n - 1].id) == n - 1 then [s[n - 1]] else [])
  }

  /** The deduplication of `updateMapPolygons`. */
  function Dedup(s: seq<Rendered>): seq<Rendered> {
    KeepFirst(s, |s|)
  }

  /** Each item the filter keeps from the first `n` items is the first
      occurrence of its id, which lies among those `n` items. */
  lemma {:induction false} KeepFirstItems(s: seq<Rendered>, n: nat)
    requires n <= |s|
    ensures forall a :: 0 <= a < |KeepFirst(s, n)| ==>
      0 <= FirstIndex(s, KeepFirst(s, n)[a].id) < n && KeepFirst(s, n)[a] == s[FirstIndex(s, KeepFirst(s, n)[a].id)]
  {
    if n > 0 {
      KeepFirstItems(s, n - 1);
      var prev := KeepFirst(s, n - 1);
      var cur := KeepFirst(s, n);
      forall a | 0 <= a < |cur|
        ensures 0 <= FirstIndex(s, cur[a].id) < n && cur[a] == s[FirstIndex(s, cur[a].id)]
      {
        if a < |prev| {
          assert cur[a] == prev[a];
        }
      }
    }
  }

  /** The kept items appear in the order of the first occurrences of their
      ids, so no id is kept twice. */
  lemma {:induction false} KeepFirstOrdered(s: seq<Rendered>, n: nat)
    requires n <= |s|
    ensures forall a, b :: 0 <= a < b < |KeepFirst(s, n)| ==>
      FirstIndex(s, KeepFirst(s, n)[a].id) < FirstIndex(s, KeepFirst(s, n)[b].id)
  {
    if n > 0 {
      KeepFirstOrdered(s, n - 1);
      KeepFirstItems(s, n - 1);
      var prev := KeepFirst(s, n - 1);
      var cur := KeepFirst(s, n);
      forall a, b | 0 <= a < b < |cur|
        ensures FirstIndex(s, cur[a].id) < FirstIndex(s, cur[b].id)
      {
        assert cur[a] == prev[a];
        if b < |prev| {
          assert cur[b] == prev[b];
        } else {
          assert cur[b] == s[n - 1] && FirstIndex(s, s[n - 1].id) == n - 1;
        }
      }
    }
  }

  /** The `properties.id` of each item. */
  function RenderedIds(s: seq<Rendered>): seq<Id> {
    MapSeq(s, RenderedId)
  }

  function RenderedId(r: Rendered): Id { r.id }

  /** Every id among the first `n` items is kept. */
  lemma {:induction false} KeepFirstComplete(s: seq<Rendered>, n: nat)
    requires n <= |s|
    ensures forall k :: 0 <= k < n ==> s[k].id in RenderedIds(KeepFirst(s, n))
  {
    if n > 0 {
      KeepFirstComplete(s, n - 1);
      var prev := KeepFirst(s, n - 1);
      var cur := KeepFirst(s, n);
      var f := FirstIndex(s, s[n - 1].id);
      forall k | 0 <= k < n
        ensures s[k].id in RenderedIds(KeepFirst(s, n))
      {
        var id := if k < n - 1 then s[k].id else s[f].id;
        if k == n - 1 && f == n - 1 {
          assert cur[|prev|] == s[n - 1];
          assert RenderedIds(cur)[|prev|] == s[k].id;
        } else {
          assert id == s[k].id;
          assert id in RenderedIds(prev);
          var a :| 0 <= a < |prev| && RenderedIds(prev)[a] == id;
          assert cur[a] == prev[a];
          assert RenderedIds(cur)[a] == id;
        }
      }
    }
  }

  /** The deduplicated list holds no two items with the same id, keeps the
      first occurrence of each id in input order, and loses no id. */
  lemma DedupSpec(s: seq<Rendered>)
    ensures forall a, b :: 0 <= a < b < |Dedup(s)| ==> Dedup(s)[a].id != Dedup(s)[b].id
    ensures forall a :: 0 <= a < |Dedup(s)| ==>
      0 <= FirstIndex(s, Dedup(s)[a].id) && Dedup(s)[a] == s[FirstIndex(s, Dedup(s)[a].id)]
    ensures forall a, b :: 0 <= a < b < |Dedup(s)| ==> FirstIndex(s, Dedup(s)[a].id) < FirstIndex(s, Dedup(s)[b].id)
    ensures forall k :: 0 <= k < |s| ==> s[k].id in RenderedIds(Dedup(s))
  {
    KeepFirstItems(s, |s|);
    KeepFirstOrdered(s, |s|);
    KeepFirstComplete(s, |s|);
  }

  /** When no id repeats, the filter keeps every item. */
  lemma {:induction false} KeepFirstDistinct(s: seq<Rendered>, n: nat)
    requires n <= |s|
    requires forall i, j :: 0 <= i < j < |s| ==> s[i].id != s[j].id
    ensures KeepFirst(s, n) == s[..n]
  {
    if n > 0 {
      KeepFirstDistinct(s, n - 1);
      assert s[..n] == s[..n - 1] + [s[n - 1]];
    }
  }

  /** `.map(f => JSON.parse(f.properties.original))`: one failure and the
      whole list fails. */
  function DecodeAll(s: seq<Rendered>, decode: string -> Option<Feature>): (r: Option<seq<Feature>>)
    ensures r.Some? <==> forall i :: 0 <= i < |s| ==> decode(s[i].original).Some?
    ensures r.Some? ==> |r.value| == |s| && forall i :: 0 <= i < |s| ==> Some(r.value[i]) == decode(s[i].original)
  {
    if s == [] then Some([])
    else match DecodeAll(s[..|s| - 1], decode)
      case None => None
      case Some(fs) =>
        match decode(s[|s| - 1].original)
        case None => None
        case Some(f) => Some(fs + [f])
  }

  /** The new `places` data for one pass of `updateMapPolygons`, given what
      the engine's source query returned (`None` when the query throws);
      `None` when the pass fails and the previous data must stay. */
  function Reconcile(query: Option<seq<Rendered>>, decode: string -> Option<Feature>): Option<seq<Feature>> {
    match query
    case None => None
    case Some(s) => DecodeAll(Dedup(Unclustered(s)), decode)
  }

  /** A successful pass yields, for each distinct id among the unclustered
      label features, the decoded original of the first such feature, in the
      order those first features have in the engine's list. */
  lemma ReconcileSpec(s: seq<Rendered>, decode: string -> Option<Feature>)
    requires Reconcile(Some(s), decode).Some?
    ensures var d := Dedup(Unclustered(s)); var r := Reconcile(Some(s), decode).value;
      && |r| == |d|
      && (forall a :: 0 <= a < |d| ==>
            0 <= UnclusteredFirst(s, d[a].id) && d[a] == s[UnclusteredFirst(s, d[a].id)]
            && Some(r[a]) == decode(d[a].original))
      && (forall a, b :: 0 <= a < b < |d| ==> UnclusteredFirst(s, d[a].id) < UnclusteredFirst(s, d[b].id))
      && (forall k :: 0 <= k < |s| && IsUnclustered(s[k]) ==> s[k].id in RenderedIds(d))
  {
    var d := Dedup(Unclustered(s));
    ReconciledItems(s);
    var r := Reconcile(Some(s), decode).value;
    assert forall a :: 0 <= a < |d| ==> Some(r[a]) == decode(d[a].original);
  }

  /** The items both filters keep: for each distinct unclustered id, its
      first unclustered item, in the engine's order, none missing. */
  lemma ReconciledItems(s: seq<Rendered>)
    ensures var d := Dedup(Unclustered(s));
      && (forall a :: 0 <= a < |d| ==>
            0 <= UnclusteredFirst(s, d[a].id) && d[a] == s[UnclusteredFirst(s, d[a].id)])
      && (forall a, b :: 0 <= a < b < |d| ==> UnclusteredFirst(s, d[a].id) < UnclusteredFirst(s, d[b].id))
      && (forall k :: 0 <= k < |s| && IsUnclustered(s[k]) ==> s[k].id in RenderedIds(d))
  {
    var u := Unclustered(s);
    DedupSpec(u);
    var d := Dedup(u);
    forall a | 0 <= a < |d|
      ensures 0 <= UnclusteredFirst(s, d[a].id) && d[a] == s[UnclusteredFirst(s, d[a].id)]
    {
      UnclusteredFirstIndex(s, d[a].id);
    }
    forall a, b | 0 <= a < b < |d|
      ensures UnclusteredFirst(s, d[a].id) < UnclusteredFirst(s, d[b].id)
    {
      UnclusteredFirstOrder(s, d[a].id, d[b].id);
    }
    forall k | 0 <= k < |s| && IsUnclustered(s[k]) ensures s[k].id in RenderedIds(d) {
      assert s[k] in s;
      var j :| 0 <= j < |u| && u[j] == s[k];
      assert u[j].id in RenderedIds(d);
    }
  }

  /** How the engine reports a label it renders unclustered: no top-level id,
      the label's id and its original feature serialised. */
  function Render(ls: seq<Label>, encode: Feature -> string): (r: seq<Rendered>)
    ensures |r| == |ls|
    ensures forall i :: 0 <= i < |ls| ==> r[i] == Rendered(None, ls[i].id, encode(ls[i].original))
  {
    if ls == [] then [] else Render(ls[..|ls| - 1], encode) + [Rendered(None, ls[|ls| - 1].id, encode(ls[|ls| - 1].original))]
  }

  /** Round trip through the engine: when every feature is rendered as an
      unclustered label, ids are distinct and decoding inverts the
      serialisation of each feature in the list, the reconciler hands back exactly the feature list. */
  lemma ReconcileLabels(fs: seq<Feature>, encode: Feature -> string, decode: string -> Option<Feature>)
    requires forall f :: f in fs ==> decode(encode(f)) == Some(f)
    requires forall i, j :: 0 <= i < j < |fs| ==> fs[i].properties.id != fs[j].properties.id
    ensures Reconcile(Some(Render(Labels(fs), encode)), decode) == Some(fs)
  {
    var s := Render(Labels(fs), encode);
    RenderedLabels(fs, encode);
    FiltersKeepDistinct(s);
    DecodeRendered(fs, s, encode, decode);
  }

  /** A list of unclustered items with distinct ids passes both filters
      unchanged. */
  lemma FiltersKeepDistinct(s: seq<Rendered>)
    requires forall i :: 0 <= i < |s| ==> s[i].topId.None?
    requires forall i, j :: 0 <= i < j < |s| ==> s[i].id != s[j].id
    ensures Dedup(Unclustered(s)) == s
  {
    UnclusteredAll(s);
    KeepFirstDistinct(s, |s|);
    assert s[..|s|] == s;
  }

  /** The rendered labels of `fs`, item by item. */
  lemma RenderedLabels(fs: seq<Feature>, encode: Feature -> string)
    requires forall i, j :: 0 <= i < j < |fs| ==> fs[i].properties.id != fs[j].properties.id
    ensures var s := Render(Labels(fs), encode);
      && |s| == |fs|
      && (forall i :: 0 <= i < |s| ==> s[i].topId.None? && s[i].original == encode(fs[i]))
      && (forall i, j :: 0 <= i < j < |s| ==> s[i].id != s[j].id)
  {
    var s := Render(Labels(fs), encode);
    assert forall i :: 0 <= i < |s| ==> s[i].id == fs[i].properties.id && s[i].original == encode(fs[i]);
  }

  lemma DecodeRendered(fs: seq<Feature>, s: seq<Rendered>, encode: Feature -> string, decode: string -> Option<Feature>)
    requires forall f :: f in fs ==> decode(encode(f)) == Some(f)
    requires |s| == |fs|
    requires forall i :: 0 <= i < |s| ==> s[i].original == encode(fs[i])
    ensures DecodeAll(s, decode) == Some(fs)
  {
    assert forall i :: 0 <= i < |s| ==> decode(s[i].original) == Some(fs[i]);
    var r := DecodeAll(s, decode);
    assert r.Some?;
    assert forall i :: 0 <= i < |s| ==> r.value[i] == fs[i];
  }

  /** A list without cluster points passes the first filter unchanged. */
  lemma {:induction false} UnclusteredAll(s: seq<Rendered>)
    requires forall i :: 0 <= i < |s| ==> s[i].topId.None?
    ensures Unclustered(s) == s
  {
    if s != [] {
      UnclusteredAll(s[..|s| - 1]);
      assert s[..|s| - 1] + [s[|s| - 1]] == s;
    }
  }

  /** `updateMapPolygons(map)`: on success the `places` source gets the
      reconciled features; on any failure, including a missing `places`
      source, the source table is left as it was. */
  method UpdateMapPolygons(m: MapEngine, query: Option<seq<Rendered>>, decode: string -> Option<Feature>)
    returns (updated: bool)
    modifies m`sources
    ensures updated <==> Reconcile(query, decode).Some?
                          && SetSourceData(old(m.sources), "places", FeatureCollection(Reconcile(query, decode).value)).Some?
    ensures m.sources == if updated
      then SetSourceData(old(m.sources), "places", FeatureCollection(Reconcile(query, decode).value)).value
      else old(m.sources)
  {
    updated := false;
    var features := Reconcile(query, decode);
    if features.Some? {
      updated := m.SetData("places", FeatureCollection(features.value));
    }
  }
}
