/** The shared board: the room's `strokes` map from stroke id to stroke
    record, kept in key-insertion order as a JavaScript map is, and the
    resolution of a list of known ids against it for rendering. */
module Board {

  /** One sample of a stroke: page coordinates and pen pressure. */
  datatype Point = Point(x: real, y: real, pressure: real)

  /** A stroke record: its style weight and its points in drawing order. */
  datatype Stroke = Stroke(gradient: int, points: seq<Point>)

  /** `order` lists every key of `entries` once, in insertion order, and no
      key is the empty string (every id is made by the random id generator). */
  ghost predicate WellFormed(entries: map<string, Stroke>, order: seq<string>)
  {
    && (forall i, j :: 0 <= i < j < |order| ==> order[i] != order[j])
    && (forall i :: 0 <= i < |order| ==> order[i] in entries)
    && (forall id :: id in entries ==> id in order)
    && "" !in entries
  }

  /** The board map. Its fields are reassigned in place, and several
      holders (the storage root, the page, the canvas) may refer to one map. */
  class StrokeMap {
    var entries: map<string, Stroke>
    var order: seq<string>

    ghost predicate Valid()
      reads this
    {
      WellFormed(entries, order)
    }

    /** `new LiveMap()`: an empty map. */
    constructor ()
      ensures Valid() && entries == map[] && order == []
    {
      entries := map[];
      order := [];
    }

    /** `set(id, s)`: a new key goes to the end of the key order, an existing
        key keeps its place and takes the new value. */
    method Set(id: string, s: Stroke)
      requires Valid() && id != ""
      modifies this
      ensures Valid()
      ensures entries == old(entries)[id := s]
      ensures order == if id in old(entries) then old(order) else old(order) + [id]
    {
      if id !in entries {
        order := order + [id];
      }
      entries := entries[id := s];
    }
  }

  /** The `<For>` body: each id in `ids`, in order, paired with its record,
      with the ids that have no record in `entries` skipped. */
  function Resolve(ids: seq<string>, entries: map<string, Stroke>): (r: seq<(string, Stroke)>)
    ensures |r| <= |ids|
    ensures forall k :: 0 <= k < |r| ==> r[k].0 in ids
    ensures forall k :: 0 <= k < |r| ==> r[k].0 in entries && r[k].1 == entries[r[k].0]
  {
    if ids == [] then []
    else
      var rest := Resolve(ids[1..], entries);
      if ids[0] in entries then [(ids[0], entries[ids[0]])] + rest else rest
  }

  /** Resolution works id by id: resolving a concatenation resolves each part. */
  lemma {:induction false} ResolveAppend(a: seq<string>, b: seq<string>, entries: map<string, Stroke>)
    ensures Resolve(a + b, entries) == Resolve(a, entries) + Resolve(b, entries)
  {
    if a == [] {
      assert a + b == b;
    } else {
      assert (a + b)[1..] == a[1..] + b;
      ResolveAppend(a[1..], b, entries);
    }
  }

  /** An id without a record renders nothing; an id with one renders exactly it. */
  lemma ResolveOne(id: string, entries: map<string, Stroke>)
    ensures id !in entries ==> Resolve([id], entries) == []
    ensures id in entries ==> Resolve([id], entries) == [(id, entries[id])]
  {
  }

  /** When every known id has arrived, every one of them is rendered, in order. */
  lemma {:induction false} ResolveAllPresent(ids: seq<string>, entries: map<string, Stroke>)
    requires forall i :: 0 <= i < |ids| ==> ids[i] in entries
    ensures |Resolve(ids, entries)| == |ids|
    ensures forall k :: 0 <= k < |ids| ==> Resolve(ids, entries)[k] == (ids[k], entries[ids[k]])
  {
    if ids != [] {
      ResolveAllPresent(ids[1..], entries);
    }
  }

  /** When no known id has arrived yet, nothing is rendered. */
  lemma {:induction false} ResolveNonePresent(ids: seq<string>, entries: map<string, Stroke>)
    requires forall i :: 0 <= i < |ids| ==> ids[i] !in entries
    ensures Resolve(ids, entries) == []
  {
    if ids != [] {
      ResolveNonePresent(ids[1..], entries);
    }
  }

  /** Rendering the board's own key list shows every stroke of the board
      exactly once, in insertion order. */
  lemma RenderKeysShowsBoard(entries: map<string, Stroke>, order: seq<string>)
    requires WellFormed(entries, order)
    ensures |Resolve(order, entries)| == |order| == |entries|
    ensures forall k :: 0 <= k < |order| ==> Resolve(order, entries)[k] == (order[k], entries[order[k]])
  {
    ResolveAllPresent(order, entries);
    DistinctKeysCount(entries, order);
  }

  /** A duplicate-free listing of a map's keys is as long as the map. */
  lemma {:induction false} DistinctKeysCount(entries: map<string, Stroke>, order: seq<string>)
    requires forall i, j :: 0 <= i < j < |order| ==> order[i] != order[j]
    requires forall i :: 0 <= i < |order| ==> order[i] in entries
    requires forall id :: id in entries ==> id in order
    ensures |order| == |entries|
    decreases |order|
  {
    if order == [] {
      assert entries == map[];
    } else {
      var last := order[|order| - 1];
      var rest := order[..|order| - 1];
      var smaller := map id | id in entries && id != last :: entries[id];
      forall id | id in smaller ensures id in rest {
        var i :| 0 <= i < |order| && order[i] == id;
        assert i != |order| - 1;
        assert rest[i] == id;
      }
      DistinctKeysCount(smaller, rest);
      assert smaller.Keys == entries.Keys - {last};
      assert entries.Keys == smaller.Keys + {last};
    }
  }
}
