/** Properties that relate several store operations: read-after-write,
    overwrite and idempotence, join/leave counting, and the invariants every
    sequence of requests keeps. */
module StoreProperties {
  import opened Results
  import opened Drawing
  import opened Tally
  import opened CanvasService

  /** A state-changing request to the service. Reads are left out of traces:
      they never change the store. */
  datatype Command =
    | Create(id: RoomId, name: string, createdAt: string)
    | Save(id: RoomId, drawing: DrawingData)
    | Join(id: RoomId, userId: string)
    | Leave(id: RoomId, userId: string)
    | Delete(id: RoomId)

  /** One request. A request that raises leaves the store as it was: the
      Python service checks before it mutates. Rooms other than the
      request's own are never touched. */
  function Step(s: Store, c: Command): (s': Store)
    ensures Valid(s) ==> Valid(s')
    ensures (c.Save? || c.Join?) && c.id !in s.rooms ==> s' == s
    ensures forall r :: r != c.id && r in s.rooms ==> r in s'.rooms && s'.rooms[r] == s.rooms[r]
    ensures forall r :: r != c.id ==> (r in s'.rooms <==> r in s.rooms)
    ensures s'.canvasData - {c.id} == s.canvasData - {c.id}
    ensures s'.analytics - {c.id} == s.analytics - {c.id}
  {
    match c
    case Create(id, name, at) => CreateRoom(s, id, name, at)
    case Save(id, d) => (match SaveCanvas(s, id, d) case Ok(t) => t case Err(_) => s)
    case Join(id, u) => (match JoinRoom(s, id, u) case Ok(t) => t case Err(_) => s)
    case Leave(id, u) => LeaveRoom(s, id, u)
    case Delete(id) => DeleteRoom(s, id)
  }

  /** A sequence of requests, applied in order. Every sequence keeps the
      store consistent. */
  function Run(s: Store, cs: seq<Command>): (s': Store)
    ensures Valid(s) ==> Valid(s')
    decreases |cs|
  {
    if |cs| == 0 then s else Run(Step(s, cs[0]), cs[1..])
  }

  /** Any request sequence run on a new service leaves `rooms` and
      `canvasData` with the same keys, analytics only for existing rooms, and
      no negative counter. */
  lemma ReachableIsValid(cs: seq<Command>)
    ensures Valid(Run(NewService(), cs))
    ensures Run(NewService(), cs).rooms.Keys == Run(NewService(), cs).canvasData.Keys
    ensures Run(NewService(), cs).analytics.Keys <= Run(NewService(), cs).rooms.Keys
  {
  }

  /** Running two request sequences in turn is running their concatenation. */
  lemma {:induction false} RunAppend(s: Store, a: seq<Command>, b: seq<Command>)
    ensures Run(s, a + b) == Run(Run(s, a), b)
    decreases |a|
  {
    if |a| > 0 {
      assert (a + b)[0] == a[0];
      assert (a + b)[1..] == a[1..] + b;
      RunAppend(Step(s, a[0]), a[1..], b);
    } else {
      assert a + b == b;
    }
  }

  // ---------------------------------------------------------------------
  // Reads after writes

  /** A freshly created room reads back with no users, the default size and
      an empty canvas; a fresh id in a consistent store has no analytics, so
      the all-zero record is reported. */
  lemma CreateThenRead(s: Store, id: RoomId, name: string, createdAt: string)
    requires Valid(s) && id !in s.rooms
    ensures GetRoomInfo(CreateRoom(s, id, name, createdAt), id)
         == Ok(RoomInfo(id, name, createdAt, 0, 1920, 1080))
    ensures GetCanvas(CreateRoom(s, id, name, createdAt), id)
         == Ok(MakeDrawingData(None, None, None, None, None))
    ensures GetRoomAnalytics(CreateRoom(s, id, name, createdAt), id) == NoAnalytics()
  {
  }

  /** Saving and then reading a canvas returns exactly what was saved. */
  lemma SaveThenGet(s: Store, id: RoomId, d: DrawingData)
    requires id in s.rooms
    ensures SaveCanvas(s, id, d).Ok?
    ensures GetCanvas(SaveCanvas(s, id, d).value, id) == Ok(d)
    ensures GetRoomAnalytics(SaveCanvas(s, id, d).value, id).totalStrokes == |d.strokes|
  {
  }

  /** `get_canvas` tests the canvas map while the other operations test the
      room map; in a consistent store both fail for exactly the same ids. */
  lemma ReadsAgree(s: Store, id: RoomId)
    requires Valid(s)
    ensures GetCanvas(s, id).Err? <==> GetRoomInfo(s, id).Err?
  {
  }

  /** A recomputation reads nothing from the previous entry but its user
      count and heatmap. */
  lemma RecomputeKeepsOnly(p: CanvasAnalytics, q: CanvasAnalytics, d: DrawingData)
    requires p.activeUsers == q.activeUsers && p.heatmapData == q.heatmapData
    ensures RecomputeAnalytics(p, d) == RecomputeAnalytics(q, d)
  {
  }

  /** A second write to the same key hides the first. */
  lemma MapUpdateTwice<V>(m: map<RoomId, V>, id: RoomId, x: V, y: V)
    ensures m[id := x][id := y] == m[id := y]
  {
  }

  /** Recomputing analytics ignores whatever the previous drawing
      contributed: refreshing for `d0` and then for `d` is the same as
      refreshing for `d` alone. */
  lemma AnalyticsFromScratch(m: map<RoomId, CanvasAnalytics>, id: RoomId, d0: DrawingData, d: DrawingData)
    ensures UpdateRoomAnalytics(UpdateRoomAnalytics(m, id, d0), id, d) == UpdateRoomAnalytics(m, id, d)
  {
  }

  /** Saving replaces the canvas outright: a save followed by another save
      to the same room leaves the store exactly as the second save alone
      would. In particular saving the same drawing twice is idempotent. */
  lemma SaveOverwrites(s: Store, id: RoomId, d0: DrawingData, d: DrawingData)
    requires id in s.rooms
    ensures SaveCanvas(s, id, d0).Ok?
    ensures SaveCanvas(SaveCanvas(s, id, d0).value, id, d) == SaveCanvas(s, id, d)
  {
    AnalyticsFromScratch(s.analytics, id, d0, d);
    MapUpdateTwice(s.canvasData, id, d0, d);
  }

  /** Saving the same drawing twice leaves the store as one save does. */
  lemma SaveIdempotent(s: Store, id: RoomId, d: DrawingData)
    requires id in s.rooms
    ensures SaveCanvas(s, id, d).Ok?
    ensures SaveCanvas(SaveCanvas(s, id, d).value, id, d) == SaveCanvas(s, id, d)
  {
    SaveOverwrites(s, id, d, d);
  }

  // ---------------------------------------------------------------------
  // Membership counter

  /** The user id plays no part in a join: any two users joining give the
      same store, and the same user joining twice counts twice. */
  lemma JoinIgnoresUser(s: Store, id: RoomId, u: string, v: string)
    requires id in s.rooms
    ensures JoinRoom(s, id, u) == JoinRoom(s, id, v)
    ensures JoinRoom(JoinRoom(s, id, u).value, id, u).value.rooms[id].activeUsers
         == s.rooms[id].activeUsers + 2
  {
  }

  /** Leaving undoes a join whenever the counter was not negative. */
  lemma JoinThenLeave(s: Store, id: RoomId, u: string, v: string)
    requires id in s.rooms && s.rooms[id].activeUsers >= 0
    ensures JoinRoom(s, id, u).Ok?
    ensures LeaveRoom(JoinRoom(s, id, u).value, id, v) == s
  {
  }

  /** Joining does not undo a leave from an empty room: the leave is floored
      at zero, so the counter ends one higher than it started. */
  lemma LeaveEmptyThenJoin(s: Store, id: RoomId, u: string, v: string)
    requires id in s.rooms && s.rooms[id].activeUsers == 0
    ensures JoinRoom(LeaveRoom(s, id, u), id, v).Ok?
    ensures JoinRoom(LeaveRoom(s, id, u), id, v).value.rooms[id].activeUsers == 1
    ensures JoinRoom(LeaveRoom(s, id, u), id, v).value != s
  {
  }

  /** One join request per listed user, in order. */
  function Joins(id: RoomId, users: seq<string>): (cs: seq<Command>)
    ensures |cs| == |users|
    ensures forall i :: 0 <= i < |users| ==> cs[i] == Join(id, users[i])
  {
    seq(|users|, i requires 0 <= i < |users| => Join(id, users[i]))
  }

  /** One leave request per listed user, in order. */
  function Leaves(id: RoomId, users: seq<string>): (cs: seq<Command>)
    ensures |cs| == |users|
    ensures forall i :: 0 <= i < |users| ==> cs[i] == Leave(id, users[i])
  {
    seq(|users|, i requires 0 <= i < |users| => Leave(id, users[i]))
  }

  /** `max(0, x)`. */
  function Max0(x: int): int {
    if x > 0 then x else 0
  }

  /** Every join adds one, whoever joins (repeats included). */
  lemma {:induction false} JoinsCount(s: Store, id: RoomId, users: seq<string>)
    requires id in s.rooms
    ensures id in Run(s, Joins(id, users)).rooms
    ensures Run(s, Joins(id, users)).rooms[id].activeUsers == s.rooms[id].activeUsers + |users|
    decreases |users|
  {
    if |users| > 0 {
      assert Joins(id, users)[1..] == Joins(id, users[1..]);
      JoinsCount(Step(s, Join(id, users[0])), id, users[1..]);
    }
  }

  /** Every leave removes one, until the counter reaches zero. */
  lemma {:induction false} LeavesCount(s: Store, id: RoomId, users: seq<string>)
    requires id in s.rooms && s.rooms[id].activeUsers >= 0
    ensures id in Run(s, Leaves(id, users)).rooms
    ensures Run(s, Leaves(id, users)).rooms[id].activeUsers == Max0(s.rooms[id].activeUsers - |users|)
    decreases |users|
  {
    if |users| > 0 {
      assert Leaves(id, users)[1..] == Leaves(id, users[1..]);
      LeavesCount(Step(s, Leave(id, users[0])), id, users[1..]);
    }
  }

  /** After `ins` join and `outs` leave, the room reports its earlier count
      plus |ins| minus |outs|, floored at zero; from a new room with no more
      leaves than joins that is exactly |ins| - |outs|. */
  lemma JoinsThenLeaves(s: Store, id: RoomId, ins: seq<string>, outs: seq<string>)
    requires id in s.rooms && s.rooms[id].activeUsers >= 0
    ensures id in Run(s, Joins(id, ins) + Leaves(id, outs)).rooms
    ensures Run(s, Joins(id, ins) + Leaves(id, outs)).rooms[id].activeUsers
         == Max0(s.rooms[id].activeUsers + |ins| - |outs|)
    ensures s.rooms[id].activeUsers == 0 && |outs| <= |ins| ==>
      Run(s, Joins(id, ins) + Leaves(id, outs)).rooms[id].activeUsers == |ins| - |outs|
  {
    RunAppend(s, Joins(id, ins), Leaves(id, outs));
    JoinsCount(s, id, ins);
    LeavesCount(Run(s, Joins(id, ins)), id, outs);
  }

  // ---------------------------------------------------------------------
  // Deletion

  /** Deleting twice is the same as deleting once, and a deleted room reads
      as absent everywhere: no room, no canvas, the all-zero analytics. */
  lemma DeleteIdempotent(s: Store, id: RoomId)
    ensures DeleteRoom(DeleteRoom(s, id), id) == DeleteRoom(s, id)
    ensures GetRoomInfo(DeleteRoom(s, id), id) == Err(RoomNotFound)
    ensures GetCanvas(DeleteRoom(s, id), id) == Err(CanvasNotFound)
    ensures GetRoomAnalytics(DeleteRoom(s, id), id) == NoAnalytics()
  {
  }

  // ---------------------------------------------------------------------
  // Analytics always describe the stored canvas

  /** Every analytics entry describes the canvas currently stored for its
      room, reports exactly one user (the value set when the entry was
      first made; joins and leaves never touch it) and the default heatmap. */
  ghost predicate AnalyticsCurrent(s: Store) {
    forall id :: id in s.analytics ==>
      && id in s.canvasData
      && Summarises(s.analytics[id], s.canvasData[id])
      && s.analytics[id].activeUsers == 1
      && s.analytics[id].heatmapData == HeatmapData(1920, 1080, [])
  }

  /** Every create in `cs` uses an id no room has at that point, as the
      generated ids guarantee. */
  ghost predicate FreshCreates(s: Store, cs: seq<Command>)
    decreases |cs|
  {
    |cs| > 0 ==>
      && (cs[0].Create? ==> cs[0].id !in s.rooms)
      && FreshCreates(Step(s, cs[0]), cs[1..])
  }

  /** Creating a room with a fresh id keeps the analytics in step: the new
      room has none yet. */
  lemma CreateKeepsAnalyticsCurrent(s: Store, id: RoomId, name: string, createdAt: string)
    requires Valid(s) && AnalyticsCurrent(s) && id !in s.rooms
    ensures AnalyticsCurrent(CreateRoom(s, id, name, createdAt))
  {
  }

  /** Saving keeps the analytics in step: the saved room's entry is
      recomputed from the drawing just stored, and only its user count and
      heatmap are carried over. */
  lemma SaveKeepsAnalyticsCurrent(s: Store, id: RoomId, d: DrawingData)
    requires Valid(s) && AnalyticsCurrent(s) && id in s.rooms
    ensures AnalyticsCurrent(SaveCanvas(s, id, d).value)
  {
  }

  /** Deleting a room drops its analytics together with its canvas. */
  lemma DeleteKeepsAnalyticsCurrent(s: Store, id: RoomId)
    requires AnalyticsCurrent(s)
    ensures AnalyticsCurrent(DeleteRoom(s, id))
  {
  }

  /** Every request keeps the analytics in step with the canvases, provided
      a create uses a fresh id: a create over an existing room would reset
      its canvas but keep its old analytics. Joins and leaves touch neither
      map. */
  lemma StepKeepsAnalyticsCurrent(s: Store, c: Command)
    requires Valid(s) && AnalyticsCurrent(s)
    requires c.Create? ==> c.id !in s.rooms
    ensures AnalyticsCurrent(Step(s, c))
  {
    match c
    case Create(id, name, at) => CreateKeepsAnalyticsCurrent(s, id, name, at);
    case Save(id, d) => if id in s.rooms { SaveKeepsAnalyticsCurrent(s, id, d); }
    case Join(_, _) =>
    case Leave(_, _) =>
    case Delete(id) => DeleteKeepsAnalyticsCurrent(s, id);
  }

  /** With fresh ids for every create, a run keeps the analytics in step
      with the stored canvases. */
  lemma {:induction false} RunKeepsAnalyticsCurrent(s: Store, cs: seq<Command>)
    requires Valid(s) && AnalyticsCurrent(s) && FreshCreates(s, cs)
    ensures AnalyticsCurrent(Run(s, cs))
    decreases |cs|
  {
    if |cs| > 0 {
      StepKeepsAnalyticsCurrent(s, cs[0]);
      RunKeepsAnalyticsCurrent(Step(s, cs[0]), cs[1..]);
    }
  }

  /** In every store reached from a new service with fresh ids, the
      analytics of a room report the stroke count of its stored canvas and
      colour counts summing to it, and exactly one user. */
  lemma ReachableAnalytics(cs: seq<Command>, id: RoomId)
    requires FreshCreates(NewService(), cs)
    requires id in Run(NewService(), cs).analytics
    ensures id in Run(NewService(), cs).canvasData
    ensures GetRoomAnalytics(Run(NewService(), cs), id).totalStrokes
         == |Run(NewService(), cs).canvasData[id].strokes|
    ensures GetRoomAnalytics(Run(NewService(), cs), id).activeUsers == 1
    ensures Total(GetRoomAnalytics(Run(NewService(), cs), id).colorUsage)
         == |Run(NewService(), cs).canvasData[id].strokes|
  {
    RunKeepsAnalyticsCurrent(NewService(), cs);
    var t := Run(NewService(), cs);
    var d := t.canvasData[id];
    var a := t.analytics[id];
    TallyUnique(a.colorUsage, Counts(Colors(d.strokes)), Colors(d.strokes), Colors(d.strokes));
  }

  /** Every analytics entry reports exactly one user. */
  predicate OneUser(s: Store) {
    forall id :: id in s.analytics ==> s.analytics[id].activeUsers == 1
  }

  /** The analytics user count is set once, to 1, and no request changes it
      afterwards, whatever ids the creates use. */
  lemma {:induction false} RunKeepsOneUser(s: Store, cs: seq<Command>)
    requires OneUser(s)
    ensures OneUser(Run(s, cs))
    decreases |cs|
  {
    if |cs| > 0 {
      assert OneUser(Step(s, cs[0]));
      RunKeepsOneUser(Step(s, cs[0]), cs[1..]);
    }
  }

  /** In every store reached from a new service, every analytics entry
      reports one user, whatever that room's own counter says. */
  lemma ReachableOneUser(cs: seq<Command>, id: RoomId)
    requires id in Run(NewService(), cs).analytics
    ensures GetRoomAnalytics(Run(NewService(), cs), id).activeUsers == 1
  {
    RunKeepsOneUser(NewService(), cs);
  }
}
