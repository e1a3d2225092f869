/** The in-memory room and canvas store: three maps keyed by room id holding
    room metadata, the last saved drawing, and analytics derived from it.
    Every operation is a pure transition from one store to the next; an
    operation that raises in the Python service returns `Err` and leaves no new store. */
module CanvasService {
  import opened Results
  import opened Drawing
  import opened Tally

  type RoomId = string

  /** The metadata record kept for each room. */
  datatype RoomInfo = RoomInfo(
    id: RoomId,
    name: string,
    createdAt: string,
    activeUsers: int,
    canvasWidth: int,
    canvasHeight: int)

  /** The exceptions the service raises. */
  datatype ServiceError = RoomNotFound | CanvasNotFound {
    function Message(): string {
      match this
      case RoomNotFound => "Room not found"
      case CanvasNotFound => "Canvas not found"
    }
  }

  /** The service's whole state. */
  datatype Store = Store(
    rooms: map<RoomId, RoomInfo>,
    canvasData: map<RoomId, DrawingData>,
    analytics: map<RoomId, CanvasAnalytics>)

  /** The consistency every reachable store keeps: a room and its canvas are
      created and deleted together, analytics exist only for live rooms, each
      room record carries its own key, and no counter is negative. */
  predicate Valid(s: Store) {
    && s.rooms.Keys == s.canvasData.Keys
    && s.analytics.Keys <= s.rooms.Keys
    && (forall id :: id in s.rooms ==> s.rooms[id].id == id && s.rooms[id].activeUsers >= 0)
  }

  /** The store a fresh service starts with. */
  function NewService(): (s: Store)
    ensures Valid(s)
    ensures s.rooms == map[] && s.canvasData == map[] && s.analytics == map[]
  {
    Store(map[], map[], map[])
  }

  /** The drawing stored for a new room: empty, at the default size. */
  function EmptyCanvas(): (d: DrawingData)
    ensures d == MakeDrawingData(None, Some(DefaultCanvasWidth), Some(DefaultCanvasHeight), None, None)
  {
    DrawingData([], DefaultCanvasWidth, DefaultCanvasHeight, DefaultBackgroundColor, None)
  }

  /** Creates room `id` (the caller supplies the generated id and the
      creation time). The new room has no users, the default size and an
      empty canvas; every other room, every other canvas and all analytics
      are left as they were. */
  function CreateRoom(s: Store, id: RoomId, name: string, createdAt: string): (s': Store)
    ensures id in s'.rooms && id in s'.canvasData
    ensures s'.rooms[id].id == id && s'.rooms[id].name == name && s'.rooms[id].createdAt == createdAt
    ensures s'.rooms[id].activeUsers == 0
    ensures s'.rooms[id].canvasWidth == 1920 && s'.rooms[id].canvasHeight == 1080
    ensures s'.canvasData[id].strokes == []
    ensures s'.canvasData[id].canvasWidth == 1920 && s'.canvasData[id].canvasHeight == 1080
    ensures s'.rooms - {id} == s.rooms - {id}
    ensures s'.canvasData - {id} == s.canvasData - {id}
    ensures s'.analytics == s.analytics
    ensures id !in s.rooms ==> |s'.rooms| == |s.rooms| + 1
    ensures Valid(s) ==> Valid(s')
  {
    var info := RoomInfo(id, name, createdAt, 0, DefaultCanvasWidth, DefaultCanvasHeight);
    Store(s.rooms[id := info], s.canvasData[id := EmptyCanvas()], s.analytics)
  }

  /** The metadata of room `id`, or "Room not found". */
  function GetRoomInfo(s: Store, id: RoomId): (r: Result<RoomInfo, ServiceError>)
    ensures r.Err? <==> id !in s.rooms
    ensures r.Err? ==> r.error == RoomNotFound
    ensures r.Ok? ==> r.value == s.rooms[id]
  {
    if id !in s.rooms then Err(RoomNotFound) else Ok(s.rooms[id])
  }

  /** The analytics entry a room gets the first time a drawing is saved:
      zero counts, one active user, the default heatmap. */
  function FirstAnalytics(): CanvasAnalytics
  {
    CanvasAnalytics(0, 1, 0, HeatmapData(DefaultCanvasWidth, DefaultCanvasHeight, []), map[], map[])
  }

  /** The analytics reported for a room that has none: all zero and empty. */
  function NoAnalytics(): CanvasAnalytics
  {
    CanvasAnalytics(0, 0, 0, HeatmapData(DefaultCanvasWidth, DefaultCanvasHeight, []), map[], map[])
  }

  /** `a` holds exactly the statistics of drawing `d`: one stroke per stroke,
      one tenth of a second per stroke, and colour and shape counts. */
  ghost predicate Summarises(a: CanvasAnalytics, d: DrawingData) {
    && a.totalStrokes == |d.strokes|
    && a.drawingTimeTenths == |d.strokes|
    && IsTallyOf(a.colorUsage, Colors(d.strokes))
    && IsTallyOf(a.shapeCount, ShapeNames(d.strokes))
  }

  /** Overwrites the derived fields of `prev` with the statistics of `d`,
      computed from scratch. Only the user count and the heatmap survive.
      The colour counts sum to the number of strokes and name only colours
      that occur; the shape counts sum to the number of strokes that have a
      shape, which is at most the number of strokes. */
  function RecomputeAnalytics(prev: CanvasAnalytics, d: DrawingData): (a: CanvasAnalytics)
    ensures Summarises(a, d)
    ensures a.activeUsers == prev.activeUsers && a.heatmapData == prev.heatmapData
    ensures Total(a.colorUsage) == a.totalStrokes
    ensures forall c :: c in a.colorUsage ==> exists i :: 0 <= i < |d.strokes| && d.strokes[i].color == c
    ensures Total(a.shapeCount) + multiset(ShapeTypes(d.strokes))[None] == a.totalStrokes
    ensures Total(a.shapeCount) <= a.totalStrokes
    ensures forall n :: n in a.shapeCount ==> n in ShapeTypeValues
  {
    var colors := Counts(Colors(d.strokes));
    var shapes := Counts(ShapeNames(d.strokes));
    var n := |d.strokes|;
    prev.(totalStrokes := n, colorUsage := colors, shapeCount := shapes, drawingTimeTenths := n)
  }

  /** Refreshes the analytics of room `id` after `d` is saved, creating the
      entry on first use; the entries of other rooms are left as they were. */
  function UpdateRoomAnalytics(analytics: map<RoomId, CanvasAnalytics>, id: RoomId, d: DrawingData)
    : (m: map<RoomId, CanvasAnalytics>)
    ensures m.Keys == analytics.Keys + {id}
    ensures m - {id} == analytics - {id}
    ensures Summarises(m[id], d)
    ensures id in analytics ==> m[id].activeUsers == analytics[id].activeUsers
    ensures id in analytics ==> m[id].heatmapData == analytics[id].heatmapData
    ensures id !in analytics ==> m[id].activeUsers == 1
    ensures id !in analytics ==> m[id].heatmapData == HeatmapData(1920, 1080, [])
  {
    var prev := if id in analytics then analytics[id] else FirstAnalytics();
    analytics[id := RecomputeAnalytics(prev, d)]
  }

  /** Replaces the canvas of room `id` with `d` outright and refreshes its
      analytics, or fails with "Room not found". An existing analytics entry
      keeps its user count and heatmap; a first one gets 1 user and the
      default heatmap. Room metadata, other canvases and other analytics are
      left as they were. */
  function SaveCanvas(s: Store, id: RoomId, d: DrawingData): (r: Result<Store, ServiceError>)
    ensures r.Err? <==> id !in s.rooms
    ensures r.Err? ==> r.error == RoomNotFound
    ensures r.Ok? ==> r.value.rooms == s.rooms
    ensures r.Ok? ==> id in r.value.canvasData && r.value.canvasData[id] == d
    ensures r.Ok? ==> r.value.canvasData - {id} == s.canvasData - {id}
    ensures r.Ok? ==> id in r.value.analytics && Summarises(r.value.analytics[id], d)
    ensures r.Ok? ==> r.value.analytics - {id} == s.analytics - {id}
    ensures r.Ok? && id in s.analytics ==>
      r.value.analytics[id].activeUsers == s.analytics[id].activeUsers
      && r.value.analytics[id].heatmapData == s.analytics[id].heatmapData
    ensures r.Ok? && id !in s.analytics ==>
      r.value.analytics[id].activeUsers == 1 && r.value.analytics[id].heatmapData == HeatmapData(1920, 1080, [])
    ensures r.Ok? && Valid(s) ==> Valid(r.value)
  {
    if id !in s.rooms then Err(RoomNotFound)
    else
      var canvases := s.canvasData[id := d];
      assert canvases - {id} == s.canvasData - {id};
      Ok(Store(s.rooms, canvases, UpdateRoomAnalytics(s.analytics, id, d)))
  }

  /** The drawing stored for room `id`, or "Canvas not found". */
  function GetCanvas(s: Store, id: RoomId): (r: Result<DrawingData, ServiceError>)
    ensures r.Err? <==> id !in s.canvasData
    ensures r.Err? ==> r.error == CanvasNotFound
    ensures r.Ok? ==> r.value == s.canvasData[id]
  {
    if id !in s.canvasData then Err(CanvasNotFound) else Ok(s.canvasData[id])
  }

  /** The analytics of room `id`; never fails: a room without analytics, or
      an unknown room, reports the all-zero record. */
  function GetRoomAnalytics(s: Store, id: RoomId): (a: CanvasAnalytics)
    ensures id in s.analytics ==> a == s.analytics[id]
    ensures id !in s.analytics ==> a.totalStrokes == 0 && a.activeUsers == 0 && a.drawingTimeTenths == 0
    ensures id !in s.analytics ==> a.colorUsage == map[] && a.shapeCount == map[]
    ensures id !in s.analytics ==> a.heatmapData == HeatmapData(1920, 1080, [])
  {
    if id !in s.analytics then NoAnalytics() else s.analytics[id]
  }

  /** A user enters room `id`: its counter goes up by exactly one, whoever
      the user is; nothing else changes. Fails with "Room not found". */
  function JoinRoom(s: Store, id: RoomId, userId: string): (r: Result<Store, ServiceError>)
    ensures r.Err? <==> id !in s.rooms
    ensures r.Err? ==> r.error == RoomNotFound
    ensures r.Ok? ==> id in r.value.rooms
    ensures r.Ok? ==> r.value.rooms[id].activeUsers == s.rooms[id].activeUsers + 1
    ensures r.Ok? ==> r.value.rooms[id].(activeUsers := 0) == s.rooms[id].(activeUsers := 0)
    ensures r.Ok? ==> r.value.rooms - {id} == s.rooms - {id}
    ensures r.Ok? ==> r.value.canvasData == s.canvasData && r.value.analytics == s.analytics
    ensures r.Ok? && Valid(s) ==> Valid(r.value)
  {
    if id !in s.rooms then Err(RoomNotFound)
    else
      var info := s.rooms[id];
      Ok(s.(rooms := s.rooms[id := info.(activeUsers := info.activeUsers + 1)]))
  }

  /** A user leaves room `id`: its counter goes down by one but never below
      zero; leaving an unknown room does nothing. Nothing else changes. */
  function LeaveRoom(s: Store, id: RoomId, userId: string): (s': Store)
    ensures id !in s.rooms ==> s' == s
    ensures s'.rooms.Keys == s.rooms.Keys
    ensures id in s.rooms ==> s'.rooms[id].activeUsers >= 0
    ensures id in s.rooms && s.rooms[id].activeUsers >= 1 ==> s'.rooms[id].activeUsers == s.rooms[id].activeUsers - 1
    ensures id in s.rooms && s.rooms[id].activeUsers <= 0 ==> s'.rooms[id].activeUsers == 0
    ensures id in s.rooms ==> s'.rooms[id].(activeUsers := 0) == s.rooms[id].(activeUsers := 0)
    ensures s'.rooms - {id} == s.rooms - {id}
    ensures s'.canvasData == s.canvasData && s'.analytics == s.analytics
    ensures Valid(s) ==> Valid(s')
  {
    if id in s.rooms then
      var info := s.rooms[id];
      var n := if info.activeUsers - 1 > 0 then info.activeUsers - 1 else 0;
      s.(rooms := s.rooms[id := info.(activeUsers := n)])
    else s
  }

  /** Removes room `id` from all three maps; never fails, and an unknown id
      is simply absent afterwards. Every other entry is left as it was. */
  function DeleteRoom(s: Store, id: RoomId): (s': Store)
    ensures id !in s'.rooms && id !in s'.canvasData && id !in s'.analytics
    ensures s'.rooms - {id} == s.rooms - {id}
    ensures s'.canvasData - {id} == s.canvasData - {id}
    ensures s'.analytics - {id} == s.analytics - {id}
    ensures Valid(s) ==> Valid(s')
  {
    Store(s.rooms - {id}, s.canvasData - {id}, s.analytics - {id})
  }
}
