/** The page: it enters the room, binds its local view to the room's
    `strokes` map once storage has loaded, replaces that map on reset and
    tells the other participants, and rebinds when told of a reset. */
module Home {
  import opened Guards
  import opened Board

  /** The one room every page joins. */
  const RoomId: string := "my-solid-room-2"

  /** The `type` of the only event the page broadcasts and handles. */
  const ResetType: string := "RESET"

  /** A broadcast room event: `{type: kind}`. */
  datatype RoomEvent = RoomEvent(kind: string)

  /** The event `handleReset` broadcasts. */
  const Reset: RoomEvent := RoomEvent(ResetType)

  /** The receiving side of the event subscription: a `RESET` rebinds the
      view to the root's map, any other event leaves the binding as it is. */
  function Rebind<M>(binding: Option<M>, rootStrokes: M, e: RoomEvent): (r: Option<M>)
    ensures e.kind == ResetType ==> r == Some(rootStrokes)
    ensures e.kind != ResetType ==> r == binding
  {
    if e.kind == ResetType then Some(rootStrokes) else binding
  }

  /** Delivering a run of events ends bound to the root's map when any one
      of them is a reset, and leaves the binding alone when none is. */
  function RebindAll<M>(binding: Option<M>, rootStrokes: M, events: seq<RoomEvent>): (r: Option<M>)
    ensures (exists i :: 0 <= i < |events| && events[i].kind == ResetType) ==> r == Some(rootStrokes)
    ensures (forall i :: 0 <= i < |events| ==> events[i].kind != ResetType) ==> r == binding
    decreases |events|
  {
    if events == [] then binding
    else
      var r := RebindAll(Rebind(binding, rootStrokes, events[0]), rootStrokes, events[1..]);
      assert forall i :: 1 <= i < |events| ==> events[i] == events[1..][i - 1];
      r
  }

  /** The room's storage root; `strokes` is the board every participant shares. */
  class RoomStorage {
    var strokes: StrokeMap

    /** `initialStorage: { strokes: new LiveMap() }`. */
    constructor Initial()
      ensures fresh(strokes) && strokes.Valid()
      ensures strokes.entries == map[] && strokes.order == []
    {
      strokes := new StrokeMap();
    }
  }

  /** One participant's page. `strokes` is the local binding (null until
      storage has loaded), `listening` says whether the event subscription is
      in place, and `sent` logs the events this page has broadcast. */
  class Page {
    const storage: RoomStorage
    var strokes: StrokeMap?
    var listening: bool
    var sent: seq<RoomEvent>

    ghost predicate Valid()
      reads this, storage, storage.strokes, strokes
    {
      && storage.strokes.Valid()
      && (strokes != null ==> strokes.Valid())
    }

    /** Entering the room: nothing bound, no subscription, nothing sent. */
    constructor (storage: RoomStorage)
      requires storage.strokes.Valid()
      ensures this.storage == storage && Valid()
      ensures strokes == null && !listening && sent == []
    {
      this.storage := storage;
      strokes := null;
      listening := false;
      sent := [];
    }

    /** `run`, once storage has loaded: bind to the root's map, then subscribe. */
    method LoadStorage()
      requires Valid()
      modifies this
      ensures Valid()
      ensures strokes == storage.strokes && listening && sent == old(sent)
    {
      strokes := storage.strokes;
      listening := true;
    }

    /** The event callback. Before the subscription exists nothing is received. */
    method OnEvent(e: RoomEvent)
      requires Valid()
      modifies this`strokes
      ensures Valid()
      ensures listening ==> Some(strokes) == Rebind(Some(old(strokes)), storage.strokes, e)
      ensures !listening ==> strokes == old(strokes)
    {
      if listening && e.kind == ResetType {
        strokes := storage.strokes;
      }
    }

    /** `handleReset`: replace the root's map with a new empty one, bind to
        it, and only then broadcast `{type: "RESET"}`. */
    method HandleReset()
      requires Valid()
      modifies this, storage
      ensures Valid()
      ensures fresh(storage.strokes)
      ensures storage.strokes.entries == map[] && storage.strokes.order == []
      ensures strokes == storage.strokes
      ensures sent == old(sent) + [Reset]
      ensures listening == old(listening)
    {
      storage.strokes := new StrokeMap();
      strokes := storage.strokes;
      sent := sent + [Reset];
    }

    /** The `Show` guard: the room is always entered, so the canvas is
        rendered exactly when the binding is present, and on that map. */
    function Shown(): (r: Option<(string, StrokeMap)>)
      reads this
      ensures r.Some? <==> strokes != null
      ensures r.Some? ==> r.value.1 == strokes
    {
      ShowWhen(Some(RoomId), if strokes == null then None else Some(strokes))
    }
  }

  /** Two participants of one room: after one resets and the other receives
      the broadcast, both views are bound to the root's new, empty map. */
  method ResetReachesPeer(a: Page, b: Page)
    requires a != b && a.storage == b.storage
    requires a.Valid() && b.Valid() && b.listening
    modifies a, b, a.storage
    ensures a.strokes == b.strokes == a.storage.strokes
    ensures a.storage.strokes.entries == map[]
    ensures b.Shown().Some?
  {
    a.HandleReset();
    var e := a.sent[|a.sent| - 1];
    b.OnEvent(e);
  }
}
