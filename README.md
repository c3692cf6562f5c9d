# Draw with your hands: stroke session, reset protocol and gesture cursor

A Dafny model of the logic that the collaborative drawing board owns itself.

- **Board** (`board.dfy`) is the room's shared `strokes` map from stroke id to stroke record. Each record has a `gradient` weight and a list of `(x, y, pressure)` points. Keys are kept in insertion order, as a JavaScript map keeps them. The canvas resolves its list of known ids against the map and skips ids whose record has not arrived.
- **Stroke session** (`canvas.dfy`) is the canvas component:
  - a pointer-down starts a stroke of one point under a fresh id and makes that id current;
  - a move with exactly the primary button held appends one point to the current stroke;
  - a zero pressure is stored as 0.5.
  
  The functions `Start`, `Continue` and `Step` say what one event does. The `Canvas` class updates the shared map in place, and each of its methods is proved equal to those functions. Lemmas over `Replay` cover whole event sequences.
- **Page** (`home.dfy`) enters the room and binds its local view to the root's `strokes` map once storage has loaded. It only then subscribes to room events. On reset it replaces the root's map with an empty one, binds to the new map and broadcasts `{type: "RESET"}`. A received `RESET` rebinds the view to the root's current map, and any other event changes nothing. The canvas is shown exactly when the binding is present.
- **Gesture cursor** (`gesture_cursor.dfy`) is pure:
  - a total table from the seven gesture labels to pairwise distinct emoji;
  - the mirrored horizontal offset `(1 - x) * 100` percent and the vertical offset `y * 100` percent, each proved invertible, bounded and monotone;
  - the rule that the cursor is shown only when both a position and a gesture are present.
- `guards.dfy` holds `Option` and the two-operand `Show` guard shared by the page and the cursor.

Modelling choices:
- Liveblocks' `LiveMap`/`LiveList` are an ordinary `map<string, Stroke>` plus its key order, held in the `StrokeMap` class. Several holders can alias one `StrokeMap`: the storage root, the page binding and the canvas.
- The broadcast channel is the page's append-only `sent` log. Delivery to another page is a call of its `OnEvent`.
- The random id generator is not part of this model. Its output is a parameter of `StartStroke`/`HandlePointerDown`, required to be non-empty and absent from the board. `WellFormed` records that no board key is the empty string. Because of that, the canvas's initial current id `""` never resolves, and early moves are lost.

## Model

| member | source | states |
|---|---|---|
| Board.StrokeMap.constructor | src/routes/index.tsx:14 | a new map is empty, with an empty key order |
| Board.StrokeMap.Set | src/components/Canvas.tsx:22-28 | setting a key stores the value, appends a new key to the key order, keeps an existing key's place, and preserves well-formedness |
| Board.Resolve | src/components/Canvas.tsx:76-82 | every rendered entry is a known id paired with its own record, and no more entries than ids are rendered |
| Board.ResolveAppend | src/components/Canvas.tsx:76-82 | resolution works id by id: resolving a concatenation is the concatenation of the resolutions |
| Board.ResolveOne | src/components/Canvas.tsx:78-81 | an id without a record renders nothing; an id with a record renders exactly that record |
| Board.ResolveAllPresent | src/components/Canvas.tsx:76-82 | when every known id has a record, each is rendered, in the order of the id list |
| Board.ResolveNonePresent | src/components/Canvas.tsx:76-82 | when no known id has a record yet, nothing is rendered |
| Board.RenderKeysShowsBoard | src/components/Canvas.tsx:16-18 | resolving the map's own key list renders every stroke once, in insertion order, as many as the map holds |
| StrokeSession.StoredPressure | src/components/Canvas.tsx:26 | the stored pressure is the input unless it is zero, which becomes 0.5; it is never zero, and a pressure in [0,1] stays in (0,1] (same rule at line 36) |
| StrokeSession.Start | src/components/Canvas.tsx:20-30 | the new id becomes current and holds gradient 3 with exactly the one point; exactly that key is added, at the end of the key order when fresh; every other stroke is unchanged |
| StrokeSession.Continue | src/components/Canvas.tsx:32-37 | the current stroke gets exactly the point at the end, keeping earlier points and gradient; no other stroke and no key changes; a current id without a record changes nothing |
| StrokeSession.Step | src/components/Canvas.tsx:39-50 | a down makes its id current; a move with buttons other than 1 changes nothing; a move never changes the current id or key order; an admissible event keeps the board well-formed |
| StrokeSession.HeldMovesAppend | src/components/Canvas.tsx:32-37 | held moves append their samples, in issue order, to the current stroke and touch nothing else |
| StrokeSession.DrawStroke | src/components/Canvas.tsx:20-50 | a down under a fresh id and N held moves give that id a stroke of 1+N points in issue order, make it current and last in key order, and leave every other stroke unchanged |
| StrokeSession.UnheldMovesIgnored | src/components/Canvas.tsx:44-47 | any number of moves without exactly the primary button held change nothing |
| StrokeSession.MovesWithoutStrokeIgnored | src/components/Canvas.tsx:33-36 | while the current id names no record, any number of moves change nothing |
| StrokeSession.InitialMovesIgnored | src/components/Canvas.tsx:15 | from the initial empty current id, moves change nothing on a well-formed board |
| StrokeSession.ReplayKeepsWellFormed | src/components/Canvas.tsx:20-50 | a run of handlers whose downs use distinct, non-empty, fresh ids keeps the key order duplicate-free and equal to the board's keys |
| StrokeSession.ReplayKeys | src/components/Canvas.tsx:20-37 | no handler removes a stroke: after a run of handlers the board's ids are the earlier ids plus exactly those the downs start |
| StrokeSession.Canvas.constructor | src/components/Canvas.tsx:15-18 | a mounted canvas has the empty id as current stroke and the map's keys as its known ids |
| StrokeSession.Canvas.StartStroke | src/components/Canvas.tsx:20-30 | the new board and current id are those of `Start`, and the known ids are unchanged |
| StrokeSession.Canvas.ContinueStroke | src/components/Canvas.tsx:32-37 | the new board is that of `Continue`, and the current id is unchanged |
| StrokeSession.Canvas.HandlePointerDown | src/components/Canvas.tsx:39-42 | the handler's effect is `Step` of a down at the event's page position and pressure |
| StrokeSession.Canvas.HandlePointerMove | src/components/Canvas.tsx:44-50 | the handler's effect is `Step` of a move, so nothing changes unless buttons is 1 |
| StrokeSession.Canvas.OnStrokesChanged | src/components/Canvas.tsx:52-58 | the known ids become the map's keys, and the canvas then renders every stroke, in key order |
| StrokeSession.DrawingScenario | src/components/Canvas.tsx:39-50 | a down at (10,10,0.8) and held moves to (20,10,0.6) and (30,10,0) give exactly three points, with the last pressure 0.5; an unheld move adds nothing |
| Home.Rebind | src/routes/index.tsx:25-29 | a `RESET` event binds the view to the root's current map; any other event keeps the binding |
| Home.RebindAll | src/routes/index.tsx:25-29 | a run of events containing a reset ends bound to the root's map; a run without one keeps the binding |
| Home.RoomStorage.Initial | src/routes/index.tsx:11-16 | the room's initial storage holds a new, empty strokes map |
| Home.Page.constructor | src/routes/index.tsx:18 | the binding starts null, with no subscription and nothing broadcast |
| Home.Page.LoadStorage | src/routes/index.tsx:21-31 | after storage loads, the view is bound to the root's map and the event subscription is in place |
| Home.Page.OnEvent | src/routes/index.tsx:25-29 | once subscribed, the binding follows `Rebind`; before that, events change nothing |
| Home.Page.HandleReset | src/routes/index.tsx:37-42 | the root's map is a new empty map; the view is bound to that same map; exactly one `RESET` event is appended to the broadcast log |
| Home.Page.Shown | src/routes/index.tsx:50-56 | the canvas is rendered exactly when the binding is non-null, and on the bound map |
| Home.ResetReachesPeer | src/routes/index.tsx:25-42 | after one page resets and another subscribed page receives its broadcast, both are bound to the root's new empty map, and the other shows its canvas |
| Guards.ShowWhen | src/routes/index.tsx:52 | a two-operand `Show` guard renders exactly when both operands are present, with both values |
| GestureCursor.ParseLabel | src/components/GestureCursor.tsx:10-18 | a recognised label names the gesture whose label it is |
| GestureCursor.LabelRoundTrip | src/components/GestureCursor.tsx:10-18 | every gesture's label parses back to that gesture |
| GestureCursor.TableCoversLabels | src/components/GestureCursor.tsx:10-18 | the emoji table's keys are exactly the seven gesture labels |
| GestureCursor.Emoji | src/components/GestureCursor.tsx:32 | every gesture's label is in the table, and its emoji is the table entry, one code point long |
| GestureCursor.EmojiDistinct | src/components/GestureCursor.tsx:11-17 | no two gestures share an emoji |
| GestureCursor.OffsetX | src/components/GestureCursor.tsx:25 | the mirrored horizontal offset maps back to x; x = 0 gives 100 and x = 1 gives 0; x in [0,1] gives an offset in [0,100] |
| GestureCursor.OffsetY | src/components/GestureCursor.tsx:25-27 | the vertical offset maps back to y; y = 0 gives 0 and y = 1 gives 100; y in [0,1] gives an offset in [0,100] |
| GestureCursor.OffsetsMonotone | src/components/GestureCursor.tsx:25-27 | the horizontal offset strictly decreases in x; the vertical offset strictly increases in y |
| GestureCursor.View | src/components/GestureCursor.tsx:22-34 | the cursor is shown exactly when both coords and gesture are present; its offsets map back to the coords, and it shows that gesture's emoji |

## Left out

- Liveblocks replication, conflict merging, the timing of subscription notifications, the awaiting of `getStorage`, and entering and leaving the room. The store is one shared map. A notification is a call of `OnStrokesChanged`. A broadcast is an entry in `sent`, delivered by calling another page's `OnEvent`.
- The random id generator is not part of this model. Ids are parameters that must be non-empty and fresh; probabilistic uniqueness is out of scope.
- Pointer capture in `handlePointerDown`, SVG and `StrokePath` rendering, and the CSS transform strings. The cursor offsets are modelled as numbers, not as the text of the `transform` style.
- JavaScript number quirks: `NaN` pressure, which `|| 0.5` would also replace. Coordinates and pressures are reals.
- Pressure is always a number in the handlers' `Point` type, so there is no absent case.
- There is no end-of-stroke operation. The canvas never clears its current id, and there is no pointer-up handler. A new pointer-down while a stroke is current simply starts another stroke, and the earlier record stays on the board unchanged.
- The `StrokeSession.Canvas` a page renders is not linked to the page's binding here. The keyed `Show` mounts a new canvas, with an empty current id, when the bound map changes.
- The webcam component and the gesture recogniser: browser I/O and a foreign ML runtime whose results the shown code discards. No gesture drives drawing in the source, so no gesture-to-stroke policy is modelled.
- `LiveObject`/`LiveList` identity: a stroke record is a value, and appending replaces it under the same key.
