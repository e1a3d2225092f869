# Smart whiteboard room and canvas store, in Dafny

This project models the backend's in-memory room and canvas store,
`CanvasService`, and the drawing records it keeps. The store holds three maps
keyed by room id:

- `rooms`: room metadata, including an `active_users` counter;
- `canvas_data`: the whole drawing last saved for each room;
- `analytics`: per-room statistics recomputed from the last saved drawing.

Every operation of the service is a pure function from one `Store` value to
the next. An operation that raises in the Python service (`"Room not found"`,
`"Canvas not found"`) returns `Err(...)` instead, and no new store. A
`Command`/`Step`/`Run` layer replays any sequence of requests, so the
invariants can be stated over every reachable store.

Files:

- `results.dfy`: `Option` (Python's `Optional`) and `Result` (a value or the raised error).
- `tally.dfy`: the counting-dict loop `m[k] = m.get(k, 0) + 1` as a fold, with the
  sum of a map's counts and its meaning as multiset multiplicities.
- `drawing.dfy`: `ToolType`, `ShapeType`, `DrawingPoint`, `DrawingStroke`,
  `DrawingData`, `CanvasAnalytics`, with their constructor defaults and enum validation.
- `canvas_service.dfy`: the store, its consistency predicate `Valid`, and every service operation.
- `store_properties.dfy`: request traces, and properties that relate several operations.

Modelling decisions:

- Room ids come from `uuid4()` and creation times from `datetime.now()`. Both
  are parameters of `CreateRoom`. `CreateRoom` puts no requirement on the id:
  like the dict assignments it models, it overwrites a room whose id is
  already taken. Freshness is assumed only where a property depends on it:
  `FreshCreates` for traces (`RunKeepsAnalyticsCurrent`), and `id !in s.rooms`
  in `CreateThenRead`, `CreateKeepsAnalyticsCurrent` and `StepKeepsAnalyticsCurrent`.
- `drawing_time` is `len(strokes) * 0.1` seconds in the Python service. The model keeps it
  as `drawingTimeTenths`, an integer count of tenths of a second, equal to
  the number of strokes.
- Stroke width, point coordinates and pressure are floats in the Python service. They
  are `real` here and are only stored and compared, never computed with.
- `heatmap_data` is an untyped dict in the Python service. The service only ever
  writes `{'width': 1920, 'height': 1080, 'data': []}`, so it is modelled as
  `HeatmapData(width, height, data)`.
- The Python service tests `if stroke.shape_type:`. Every `ShapeType` member is a
  non-empty string, so that test is true exactly when the shape is not null,
  and the model tests `shapeType.Some?`.
- Membership is a plain counter. `join_room` and `leave_room` ignore their
  `user_id`, so the same user joining twice counts twice (`JoinIgnoresUser`).
  `leave_room` floors the counter at zero (`LeaveEmptyThenJoin`).
- The analytics `active_users` field is set to 1 when a room's entry is first
  created, and nothing changes it later. It is therefore 1 in every reachable
  store, whatever the room's own counter says (`ReachableOneUser`).

The service keeps one whole drawing per room and replaces it on every save.
It has no per-element store, no session registry and no broadcast ordering,
and its user count is a counter that `user_id` never touches.

## Model

| member | source | states |
|---|---|---|
| `Tally.TallyFrom` | backend/app/services/canvas_service.py:120-123 | the counting loop, run from any starting counts: the keys afterwards are the old keys plus the visited ones; each count is its old value plus the key's number of occurrences; the total of all counts grows by exactly the number of keys visited |
| `Tally.Counts` | backend/app/services/canvas_service.py:120-123 | the counting loop from an empty dict: keys are exactly the values that occur, each count is that value's multiplicity and at least 1, and the counts sum to the length of the input |
| `Tally.BumpTotal` | backend/app/services/canvas_service.py:123 | one `get(k, 0) + 1` step adds exactly one to the sum of the counts, whether or not `k` was present |
| `Tally.TallyUnique` | backend/app/services/canvas_service.py:120-134 | two counting maps over inputs with the same multiset are equal: as dict values, the counts do not depend on stroke order |
| `Drawing.ParseToolType` | backend/app/models/drawing.py:5-9 | a string is accepted as a tool exactly when it is one of "pen", "eraser", "shape", "text", and the accepted tool carries that string |
| `Drawing.ParseShapeType` | backend/app/models/drawing.py:11-16 | a string is accepted as a shape exactly when it is one of the five shape values, and the accepted shape carries that string |
| `Drawing.ToolTypeClosed` | backend/app/models/drawing.py:5-9 | the tool values are four distinct strings, and every tool is parsed back from its own value |
| `Drawing.ShapeTypeClosed` | backend/app/models/drawing.py:11-16 | the shape values are five distinct strings, and every shape is parsed back from its own value |
| `Drawing.PointDefaults` | backend/app/models/drawing.py:18-21 | a point built without a pressure has pressure 1.0, and a given pressure (null included) is kept |
| `Drawing.StrokeDefaults` | backend/app/models/drawing.py:23-28 | a stroke built from points alone has colour "#000000", width 2.0, tool pen and no shape; a stroke rebuilt from all its own fields is unchanged |
| `Drawing.DrawingDataDefaults` | backend/app/models/drawing.py:30-35 | a drawing built with no options has no strokes, is 1920x1080 with background "#ffffff" and has no timestamp; one rebuilt from all its own fields is unchanged |
| `Drawing.ShapeNames` | backend/app/services/canvas_service.py:129-132 | the shape names the shape loop counts: there are exactly as many as strokes with a non-null shape, each is one of the five shape values, a name occurs exactly when some stroke has that shape, and each shape's name occurs exactly as often as strokes with that shape |
| `CanvasService.NewService` | backend/app/services/canvas_service.py:15-18 | a new service holds three empty maps and satisfies the store invariant |
| `CanvasService.EmptyCanvas` | backend/app/services/canvas_service.py:34-37 | a new room's drawing is the drawing built with only width 1920 and height 1080 given |
| `CanvasService.CreateRoom` | backend/app/services/canvas_service.py:20-39 | room `id` exists afterwards with its name and creation time, 0 users and size 1920x1080, and has an empty canvas of that size; all other rooms and canvases and all analytics are unchanged; a fresh id adds exactly one room; the store invariant is preserved |
| `CanvasService.GetRoomInfo` | backend/app/services/canvas_service.py:41-46 | fails with "Room not found" exactly when the id is not a room, otherwise returns that room's record |
| `CanvasService.RecomputeAnalytics` | backend/app/services/canvas_service.py:114-137 | the new analytics summarise the drawing: stroke total, one tenth of a second per stroke, colour counts that sum to the stroke total and name only colours that occur, and shape counts that sum to the number of shaped strokes (at most the total) over the five shape names; the user count and heatmap are carried over from the previous entry |
| `CanvasService.UpdateRoomAnalytics` | backend/app/services/canvas_service.py:102-139 | the room's entry now summarises the saved drawing; an existing entry keeps its user count and heatmap, and a first entry gets 1 user and the default heatmap; other rooms' entries are unchanged |
| `CanvasService.SaveCanvas` | backend/app/services/canvas_service.py:48-56 | fails with "Room not found" exactly when the id is not a room; otherwise the room's canvas becomes exactly the given drawing, its analytics summarise that drawing, an existing entry keeps its user count and heatmap while a first entry gets 1 user and the default 1920x1080 heatmap, room metadata and every other room's canvas and analytics are unchanged, and the store invariant is preserved |
| `CanvasService.GetCanvas` | backend/app/services/canvas_service.py:58-63 | fails with "Canvas not found" exactly when the id has no canvas, otherwise returns the stored drawing |
| `CanvasService.GetRoomAnalytics` | backend/app/services/canvas_service.py:87-100 | never fails: returns the stored entry when there is one, and otherwise a record with zero strokes, zero users, zero time, empty counts and the default 1920x1080 heatmap with no data |
| `CanvasService.JoinRoom` | backend/app/services/canvas_service.py:141-146 | fails with "Room not found" exactly when the id is not a room; otherwise raises that room's counter by exactly one and changes no other field, no other room, no canvas and no analytics |
| `CanvasService.LeaveRoom` | backend/app/services/canvas_service.py:148-151 | an unknown room leaves the store unchanged; otherwise the counter drops by one if it was at least 1 and ends at 0 if it was at most 0, so it is never negative; nothing else changes |
| `CanvasService.DeleteRoom` | backend/app/services/canvas_service.py:153-162 | never fails; the id is absent from all three maps afterwards, every other entry is unchanged, and the store invariant is preserved |
| `StoreProperties.Step` | backend/app/services/canvas_service.py:20-162 | a save or join to an unknown room leaves the store unchanged; any request preserves the store invariant and leaves the room record, canvas and analytics of every other room as they were |
| `StoreProperties.Run` | backend/app/services/canvas_service.py:12-162 | every sequence of create, save, join, leave and delete requests preserves the store invariant |
| `StoreProperties.ReachableIsValid` | backend/app/services/canvas_service.py:15-18 | from a new service, rooms and canvases always have the same ids, and analytics exist only for rooms |
| `StoreProperties.RunAppend` | backend/app/services/canvas_service.py:12-162 | running two request sequences one after the other is running their concatenation |
| `StoreProperties.CreateThenRead` | backend/app/services/canvas_service.py:20-46 | after creating a fresh room, its info reads back with 0 users and size 1920x1080, its canvas is the default empty drawing, and its analytics are the all-zero record |
| `StoreProperties.SaveThenGet` | backend/app/services/canvas_service.py:48-63 | saving to an existing room succeeds; reading the canvas back returns exactly the saved drawing, and the analytics report its stroke count |
| `StoreProperties.ReadsAgree` | backend/app/services/canvas_service.py:41-63 | in a consistent store, reading a room's canvas fails with "Canvas not found" exactly when reading its info fails with "Room not found" |
| `StoreProperties.RecomputeKeepsOnly` | backend/app/services/canvas_service.py:114-137 | the recomputation depends on the previous entry only through its user count and heatmap |
| `StoreProperties.AnalyticsFromScratch` | backend/app/services/canvas_service.py:102-139 | refreshing the analytics for one drawing and then another equals refreshing for the second alone: nothing accumulates |
| `StoreProperties.SaveOverwrites` | backend/app/services/canvas_service.py:48-56 | two saves to the same room leave the whole store exactly as the second save alone would: the canvas is replaced, not merged |
| `StoreProperties.SaveIdempotent` | backend/app/services/canvas_service.py:48-56 | saving the same drawing twice gives the same store as saving it once |
| `StoreProperties.JoinIgnoresUser` | backend/app/services/canvas_service.py:141-146 | two different users joining give the same store, and the same user joining twice adds two |
| `StoreProperties.JoinThenLeave` | backend/app/services/canvas_service.py:141-151 | a leave after a join restores the store whenever the counter was not negative |
| `StoreProperties.LeaveEmptyThenJoin` | backend/app/services/canvas_service.py:148-151 | a leave from a room with 0 users followed by a join ends at 1 user, not 0: the floor at zero is not undone |
| `StoreProperties.JoinsCount` | backend/app/services/canvas_service.py:141-146 | after a list of joins the counter has grown by the length of the list, repeated users included |
| `StoreProperties.LeavesCount` | backend/app/services/canvas_service.py:148-151 | after a list of leaves the counter has dropped by the length of the list, floored at zero |
| `StoreProperties.JoinsThenLeaves` | backend/app/services/canvas_service.py:141-151 | after N joins and then M leaves the counter is the old count plus N minus M, floored at zero; for a new room with M at most N it is exactly N - M |
| `StoreProperties.DeleteIdempotent` | backend/app/services/canvas_service.py:153-162 | deleting twice equals deleting once; after a delete, room info fails with "Room not found", the canvas read fails with "Canvas not found", and the analytics are the all-zero record |
| `StoreProperties.CreateKeepsAnalyticsCurrent` | backend/app/services/canvas_service.py:20-39 | creating a room with a fresh id keeps every analytics entry a summary of its room's stored canvas; the new room has no entry |
| `StoreProperties.SaveKeepsAnalyticsCurrent` | backend/app/services/canvas_service.py:48-56 | after a save, the saved room's entry summarises the drawing just stored and still reports 1 user and the default heatmap; other entries still summarise their canvases |
| `StoreProperties.DeleteKeepsAnalyticsCurrent` | backend/app/services/canvas_service.py:153-162 | deleting a room removes its analytics with its canvas, so the remaining entries still summarise their canvases |
| `StoreProperties.StepKeepsAnalyticsCurrent` | backend/app/services/canvas_service.py:20-162 | every request keeps each analytics entry a summary of its room's stored canvas, with 1 user and the default heatmap (creates with fresh ids) |
| `StoreProperties.RunKeepsAnalyticsCurrent` | backend/app/services/canvas_service.py:20-162 | the same holds after any sequence of requests whose creates use fresh ids |
| `StoreProperties.ReachableAnalytics` | backend/app/services/canvas_service.py:87-139 | in any store reached from a new service, a room's reported analytics count the strokes of its stored canvas, their colour counts sum to that number, and they report exactly one user |
| `StoreProperties.RunKeepsOneUser` | backend/app/services/canvas_service.py:102-139 | if every analytics entry reports one user, every entry still does after any sequence of requests, whatever ids the creates use |
| `StoreProperties.ReachableOneUser` | backend/app/services/canvas_service.py:87-139 | in any store reached from a new service, a room's reported analytics have exactly one user |

## Left out

- `CanvasService.upload_image`: writes files to disk; filesystem I/O is not modelled.
- Id generation (`uuid4`) and clock reads (`datetime.now`) are not modelled: both are parameters of `CreateRoom`.
- Floating-point arithmetic: `drawing_time` is kept as an integer count of tenths of a second, so its float rounding is not modelled; float fields are stored as exact reals.
- Object aliasing: the Python service returns and mutates the stored dict and analytics objects in place. The model has values, not references, so a caller mutating a returned object is not modelled.
- `backend/app/services/ai_service.py`: shape detection, OCR and canvas analysis use OpenCV, numpy and Tesseract, floating point, wall-clock timing and random mock data; none of it is part of this model.
- `backend/app/api/routes.py`: only turns service exceptions into HTTP status codes; the errors themselves are modelled as `ServiceError`.
- `backend/main.py`: Socket.IO event relaying. Room membership and the skip-sender fan-out happen inside the `socketio` library, which is not part of this model. The work there is asynchronous and concurrent.
- `backend/app/core/config.py`: only the default canvas size 1920x1080 is used. `MAX_CANVAS_SIZE` and `MAX_FILE_SIZE` are never checked by the store, so no such check is modelled.
- Pydantic validation of field types other than the two enums (for example, rejecting a non-integer width) is not modelled: the Dafny types already rule such values out.
- Key order of the counting dicts: Python dicts keep `shape_count` and `color_usage` keys in first-occurrence order, and that order shows in the JSON `get_room_analytics` returns. Dafny maps are unordered, so the model states the counts but not their key order.
- Configurable canvas size: `settings.DEFAULT_CANVAS_WIDTH`/`DEFAULT_CANVAS_HEIGHT` in `backend/app/core/config.py` can be overridden from the environment or a `.env` file, while the heatmap sizes and the `DrawingData` defaults are literal 1920x1080. The model fixes all of them at 1920x1080, so a deployment whose room size differs from the heatmap size is not modelled.
