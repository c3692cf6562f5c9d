/** The canvas's stroke session: how pointer events become strokes on the
    board. The functions below say what one event does to the board and to
    the canvas's current-stroke id; the `Canvas` class is the component,
    whose methods update the shared map in place and are proved against them. */
module StrokeSession {
  import opened Board

  /** Style weight of every new stroke. */
  const StrokeGradient: int := 3

  /** Pressure stored when the device reports zero. */
  const DefaultPressure: real := 0.5

  /** `pressure || 0.5`: a zero pressure is replaced by the default. */
  function StoredPressure(pressure: real): (r: real)
    ensures r != 0.0
    ensures pressure != 0.0 ==> r == pressure
    ensures pressure == 0.0 ==> r == DefaultPressure
    ensures 0.0 <= pressure <= 1.0 ==> 0.0 < r <= 1.0
  {
    if pressure != 0.0 then pressure else DefaultPressure
  }

  /** The fields of a pointer event that the canvas reads. */
  datatype PointerEvent = PointerEvent(pageX: real, pageY: real, pressure: real, buttons: int)

  /** The point a pointer event contributes to a stroke. */
  function Sample(e: PointerEvent): Point
  {
    Point(e.pageX, e.pageY, StoredPressure(e.pressure))
  }

  /** A pointer-down carries the id the random id generator hands out for it. */
  datatype Input = Down(down: PointerEvent, id: string) | Move(move: PointerEvent)

  /** What the canvas sees: the board's map, its key order, and the id of
      the stroke being extended. */
  datatype Session = Session(entries: map<string, Stroke>, order: seq<string>, current: string)

  ghost predicate WellFormedSession(s: Session)
  {
    WellFormed(s.entries, s.order)
  }

  /** A pointer-down may only use an id that is non-empty and not on the board. */
  ghost predicate Admissible(s: Session, input: Input)
  {
    input.Down? ==> input.id != "" && input.id !in s.entries
  }

  /** `startStroke`: a record with one point under `id`, which becomes current. */
  function Start(s: Session, id: string, p: Point): (r: Session)
    ensures r.current == id
    ensures id in r.entries && r.entries[id] == Stroke(StrokeGradient, [p])
    ensures r.entries.Keys == s.entries.Keys + {id}
    ensures forall k :: k in s.entries && k != id ==> r.entries[k] == s.entries[k]
    ensures id !in s.entries ==> r.order == s.order + [id] && |r.entries| == |s.entries| + 1
  {
    Session(s.entries[id := Stroke(StrokeGradient, [p])],
            if id in s.entries then s.order else s.order + [id],
            id)
  }

  /** `continueStroke`: one more point at the end of the current stroke, or
      nothing at all when the current id has no record. */
  function Continue(s: Session, p: Point): (r: Session)
    ensures r.order == s.order && r.current == s.current
    ensures r.entries.Keys == s.entries.Keys
    ensures forall k :: k in s.entries && k != s.current ==> r.entries[k] == s.entries[k]
    ensures s.current in s.entries ==>
      r.entries[s.current].gradient == s.entries[s.current].gradient &&
      r.entries[s.current].points == s.entries[s.current].points + [p]
    ensures s.current !in s.entries ==> r == s
  {
    if s.current in s.entries then
      var st := s.entries[s.current];
      s.(entries := s.entries[s.current := Stroke(st.gradient, st.points + [p])])
    else
      s
  }

  /** One pointer handler: a down always starts a stroke at the event's
      position; a move extends the current stroke only with the primary
      button alone held (`buttons == 1`). */
  function Step(s: Session, input: Input): (r: Session)
    ensures WellFormedSession(s) && Admissible(s, input) ==> WellFormedSession(r)
    ensures input.Move? && input.move.buttons != 1 ==> r == s
    ensures input.Down? ==> r.current == input.id
    ensures input.Move? ==> r.current == s.current && r.order == s.order
  {
    match input
    case Down(e, id) => Start(s, id, Sample(e))
    case Move(e) => if e.buttons != 1 then s else Continue(s, Sample(e))
  }

  /** The handlers run one after another, in event order. */
  function Replay(s: Session, inputs: seq<Input>): Session
    decreases |inputs|
  {
    if inputs == [] then s else Replay(Step(s, inputs[0]), inputs[1..])
  }

  /** Move events for a sequence of pointer samples. */
  function Moves(events: seq<PointerEvent>): (r: seq<Input>)
    ensures |r| == |events|
    ensures forall i :: 0 <= i < |r| ==> r[i] == Move(events[i])
  {
    if events == [] then [] else [Move(events[0])] + Moves(events[1..])
  }

  /** The points a sequence of pointer samples contributes. */
  function Samples(events: seq<PointerEvent>): (r: seq<Point>)
    ensures |r| == |events|
    ensures forall i :: 0 <= i < |r| ==> r[i] == Sample(events[i])
  {
    if events == [] then [] else [Sample(events[0])] + Samples(events[1..])
  }

  /** The session with `ps` appended to the current stroke's points. */
  function Extended(s: Session, ps: seq<Point>): Session
    requires s.current in s.entries
  {
    var st := s.entries[s.current];
    s.(entries := s.entries[s.current := Stroke(st.gradient, st.points + ps)])
  }

  /** Appending twice is appending the concatenation. */
  lemma ExtendedTwice(s: Session, a: seq<Point>, b: seq<Point>)
    requires s.current in s.entries
    ensures Extended(Extended(s, a), b) == Extended(s, a + b)
  {
    var st := s.entries[s.current];
    assert (st.points + a) + b == st.points + (a + b);
  }

  /** A held move is a one-point append. */
  lemma HeldMoveStep(s: Session, e: PointerEvent)
    requires s.current in s.entries && e.buttons == 1
    ensures Step(s, Move(e)) == Extended(s, [Sample(e)])
  {
  }

  /** Replaying a non-empty input list is one step, then the rest. */
  lemma ReplayUnfold(s: Session, inputs: seq<Input>)
    requires inputs != []
    ensures Replay(s, inputs) == Replay(Step(s, inputs[0]), inputs[1..])
  {
  }

  /** Moves with the button held append their samples, in order, to the
      current stroke and touch nothing else. */
  lemma {:induction false} HeldMovesAppend(s: Session, events: seq<PointerEvent>)
    requires s.current in s.entries
    requires forall i :: 0 <= i < |events| ==> events[i].buttons == 1
    ensures Replay(s, Moves(events)) == Extended(s, Samples(events))
    decreases |events|
  {
    if events == [] {
      var st := s.entries[s.current];
      assert st.points + [] == st.points;
      assert s.entries[s.current := st] == s.entries;
    } else {
      var p := Sample(events[0]);
      var ms := Moves(events);
      assert ms[0] == Move(events[0]);
      assert ms[1..] == Moves(events[1..]);
      ReplayUnfold(s, ms);
      HeldMoveStep(s, events[0]);
      var s' := Extended(s, [p]);
      HeldMovesAppend(s', events[1..]);
      ExtendedTwice(s, [p], Samples(events[1..]));
      assert Samples(events) == [p] + Samples(events[1..]);
    }
  }

  /** A pointer-down under a fresh id followed by N held moves leaves a stroke
      of 1 + N points in the order they were issued, makes that id current,
      puts it last in the key order, and leaves every earlier stroke as it was. */
  lemma DrawStroke(s: Session, down: PointerEvent, id: string, events: seq<PointerEvent>)
    requires id != "" && id !in s.entries
    requires forall i :: 0 <= i < |events| ==> events[i].buttons == 1
    ensures Replay(s, [Down(down, id)] + Moves(events))
      == Session(s.entries[id := Stroke(StrokeGradient, [Sample(down)] + Samples(events))], s.order + [id], id)
    ensures |([Sample(down)] + Samples(events))| == 1 + |events|
  {
    var inputs := [Down(down, id)] + Moves(events);
    assert inputs[1..] == Moves(events);
    var s1 := Step(s, Down(down, id));
    HeldMovesAppend(s1, events);
    assert s1.entries[id := Stroke(StrokeGradient, [Sample(down)] + Samples(events))]
      == s.entries[id := Stroke(StrokeGradient, [Sample(down)] + Samples(events))];
  }

  /** Moves without the button held change nothing. */
  lemma {:induction false} UnheldMovesIgnored(s: Session, events: seq<PointerEvent>)
    requires forall i :: 0 <= i < |events| ==> events[i].buttons != 1
    ensures Replay(s, Moves(events)) == s
    decreases |events|
  {
    if events != [] {
      assert Moves(events)[1..] == Moves(events[1..]);
      UnheldMovesIgnored(s, events[1..]);
    }
  }

  /** While the current id names no record (the initial empty id, or a stroke
      that is gone after a reset), any number of moves changes nothing. */
  lemma {:induction false} MovesWithoutStrokeIgnored(s: Session, events: seq<PointerEvent>)
    requires s.current !in s.entries
    ensures Replay(s, Moves(events)) == s
    decreases |events|
  {
    if events != [] {
      assert Moves(events)[1..] == Moves(events[1..]);
      MovesWithoutStrokeIgnored(s, events[1..]);
    }
  }

  /** The canvas starts with the empty id as its current stroke, which no
      well-formed board holds: the first moves before any pointer-down are lost. */
  lemma InitialMovesIgnored(entries: map<string, Stroke>, order: seq<string>, events: seq<PointerEvent>)
    requires WellFormed(entries, order)
    ensures Replay(Session(entries, order, ""), Moves(events)) == Session(entries, order, "")
  {
    MovesWithoutStrokeIgnored(Session(entries, order, ""), events);
  }

  /** The id a pointer-down starts; none for a move. */
  function Started(input: Input): set<string>
  {
    if input.Down? then {input.id} else {}
  }

  /** The ids that the pointer-downs among `inputs` start. */
  function Ids(inputs: seq<Input>): set<string>
    decreases |inputs|
  {
    if inputs == [] then {} else Started(inputs[0]) + Ids(inputs[1..])
  }

  /** Every pointer-down in `inputs` uses a non-empty id that is neither in
      `keys` nor used by an earlier pointer-down. */
  ghost predicate FreshIds(keys: set<string>, inputs: seq<Input>)
    decreases |inputs|
  {
    inputs == [] ||
    ((inputs[0].Down? ==> inputs[0].id != "" && inputs[0].id !in keys)
     && FreshIds(keys + Started(inputs[0]), inputs[1..]))
  }

  /** One admissible handler keeps the board well-formed and adds exactly
      the id a pointer-down starts. */
  lemma StepKeys(s: Session, input: Input)
    requires WellFormedSession(s) && Admissible(s, input)
    ensures WellFormedSession(Step(s, input))
    ensures Step(s, input).entries.Keys == s.entries.Keys + Started(input)
  {
  }

  /** Every handler run on admissible input keeps the board well-formed, so
      the key order never repeats an id and lists exactly the board's strokes. */
  lemma {:induction false} ReplayKeepsWellFormed(s: Session, inputs: seq<Input>)
    requires WellFormedSession(s)
    requires FreshIds(s.entries.Keys, inputs)
    ensures WellFormedSession(Replay(s, inputs))
    decreases |inputs|
  {
    if inputs != [] {
      var s' := Step(s, inputs[0]);
      StepKeys(s, inputs[0]);
      ReplayKeepsWellFormed(s', inputs[1..]);
      ReplayUnfold(s, inputs);
    }
  }

  /** No handler removes a stroke: after a run of handlers the board's ids
      are the earlier ones plus those the pointer-downs start. */
  lemma {:induction false} ReplayKeys(s: Session, inputs: seq<Input>)
    ensures Replay(s, inputs).entries.Keys == s.entries.Keys + Ids(inputs)
    decreases |inputs|
  {
    if inputs != [] {
      var s' := Step(s, inputs[0]);
      assert s'.entries.Keys == s.entries.Keys + Started(inputs[0]);
      ReplayKeys(s', inputs[1..]);
      ReplayUnfold(s, inputs);
    }
  }

  /** The canvas component. `strokes` is the board map handed in by the page;
      `currentStroke` and `strokeIds` are its two local signals. */
  class Canvas {
    const strokes: StrokeMap
    var currentStroke: string
    var strokeIds: seq<string>

    ghost predicate Valid()
      reads this, strokes
    {
      strokes.Valid()
    }

    /** The session this canvas is part of. */
    ghost function State(): Session
      reads this, strokes
    {
      Session(strokes.entries, strokes.order, currentStroke)
    }

    /** Mounting: no current stroke, and the known ids are the map's keys. */
    constructor (strokes: StrokeMap)
      requires strokes.Valid()
      ensures this.strokes == strokes && Valid()
      ensures currentStroke == "" && strokeIds == strokes.order
    {
      this.strokes := strokes;
      currentStroke := "";
      strokeIds := strokes.order;
    }

    /** `startStroke`, with the id the random id generator produced. */
    method StartStroke(id: string, x: real, y: real, pressure: real)
      requires Valid() && id != "" && id !in strokes.entries
      modifies this, strokes
      ensures Valid()
      ensures State() == Start(old(State()), id, Point(x, y, StoredPressure(pressure)))
      ensures strokeIds == old(strokeIds)
    {
      strokes.Set(id, Stroke(StrokeGradient, [Point(x, y, StoredPressure(pressure))]));
      currentStroke := id;
    }

    /** `continueStroke`: push onto the current stroke's points if it resolves. */
    method ContinueStroke(x: real, y: real, pressure: real)
      requires Valid()
      modifies strokes
      ensures Valid()
      ensures State() == Continue(old(State()), Point(x, y, StoredPressure(pressure)))
    {
      if currentStroke in strokes.entries {
        var st := strokes.entries[currentStroke];
        strokes.Set(currentStroke, Stroke(st.gradient, st.points + [Point(x, y, StoredPressure(pressure))]));
      }
    }

    /** `handlePointerDown`: always starts a stroke at the event's position. */
    method HandlePointerDown(e: PointerEvent, id: string)
      requires Valid() && id != "" && id !in strokes.entries
      modifies this, strokes
      ensures Valid()
      ensures State() == Step(old(State()), Down(e, id))
      ensures strokeIds == old(strokeIds)
    {
      StartStroke(id, e.pageX, e.pageY, e.pressure);
    }

    /** `handlePointerMove`: ignored unless exactly the primary button is held. */
    method HandlePointerMove(e: PointerEvent)
      requires Valid()
      modifies strokes
      ensures Valid()
      ensures State() == Step(old(State()), Move(e))
    {
      if e.buttons != 1 {
        return;
      }
      ContinueStroke(e.pageX, e.pageY, e.pressure);
    }

    /** The subscription callback: the known ids become the map's keys. */
    method OnStrokesChanged()
      requires Valid()
      modifies this`strokeIds
      ensures strokeIds == strokes.order
      ensures |Rendered()| == |strokeIds| == |strokes.entries|
      ensures forall k :: 0 <= k < |strokeIds| ==> Rendered()[k] == (strokeIds[k], strokes.entries[strokeIds[k]])
    {
      strokeIds := strokes.order;
      RenderKeysShowsBoard(strokes.entries, strokes.order);
    }

    /** What the `<For>` renders: the known ids that resolve, in order. */
    function Rendered(): seq<(string, Stroke)>
      reads this, strokes
    {
      Resolve(strokeIds, strokes.entries)
    }
  }

  /** A mounted canvas, one pointer-down and two held moves give one stroke of
      three points; a move without the button held afterwards adds nothing. */
  method DrawingScenario(board: StrokeMap, id: string)
    requires board.Valid() && id != "" && id !in board.entries
    modifies board
    ensures id in board.entries
    ensures board.entries[id].points
      == [Point(10.0, 10.0, 0.8), Point(20.0, 10.0, 0.6), Point(30.0, 10.0, 0.5)]
  {
    var c := new Canvas(board);
    c.HandlePointerDown(PointerEvent(10.0, 10.0, 0.8, 1), id);
    c.HandlePointerMove(PointerEvent(20.0, 10.0, 0.6, 1));
    c.HandlePointerMove(PointerEvent(30.0, 10.0, 0.0, 1));
    c.HandlePointerMove(PointerEvent(40.0, 10.0, 0.0, 0));
  }
}
