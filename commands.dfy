/** The panel's commands on the pose store: clear all, zero all, snapshot
    export and import, and the poses a drag session records. */
module Commands {
  import opened Transforms
  import opened Poses
  import opened Tools
  import opened Bindings

  // ------------------------------------------------------------- zero all

  /** One step of `zeroAllPositions`: record the identity for `trackerKey`
      unless its stored position is relative to another tool. */
  function ZeroOne(trackerKey: string, latest: map<string, Position>, now: int): map<string, Position> {
    if trackerKey in latest && latest[trackerKey].relativeTo.Some? then latest
    else latest[trackerKey := Position(now, Some(Identity), None)]
  }

  function Zeroed(tools: seq<Tool>, latest: map<string, Position>, now: int): map<string, Position>
    decreases |tools|
  {
    if tools == [] then latest
    else ZeroOne(tools[|tools| - 1].trackerKey, Zeroed(tools[..|tools| - 1], latest, now), now)
  }

  /** Zero all, key by key: every tool's tracker key gets the identity at time
      `now` (active or not) unless its stored position has a `relativeTo`,
      in which case it keeps that position; other keys are untouched. */
  lemma {:induction false} ZeroedAt(tools: seq<Tool>, latest: map<string, Position>, now: int, k: string)
    ensures Get(Zeroed(tools, latest, now), k)
         == if IsTrackerKeyOf(tools, k) && !(k in latest && latest[k].relativeTo.Some?)
            then Some(Position(now, Some(Identity), None))
            else Get(latest, k)
    decreases |tools|
  {
    if tools != [] {
      var n := |tools|;
      var prefix := tools[..n - 1];
      var last := tools[n - 1];
      ZeroedAt(prefix, latest, now, k);
      TrackerKeyOfSnoc(prefix, last, k);
      assert tools == prefix + [last];
    }
  }

  lemma TrackerKeyOfSnoc(prefix: seq<Tool>, last: Tool, k: string)
    ensures IsTrackerKeyOf(prefix + [last], k) <==> IsTrackerKeyOf(prefix, k) || last.trackerKey == k
  {
    var tools := prefix + [last];
    assert last in tools;
    if IsTrackerKeyOf(tools, k) && last.trackerKey != k {
      var u :| u in tools && u.trackerKey == k;
      assert u in prefix;
    }
    if IsTrackerKeyOf(prefix, k) {
      var u :| u in prefix && u.trackerKey == k;
      assert u in tools;
    }
  }

  // ------------------------------------------------------------ clear all

  function Cleared(tools: seq<Tool>, latest: map<string, Position>, now: int): map<string, Position>
    decreases |tools|
  {
    if tools == [] then latest
    else Cleared(tools[..|tools| - 1], latest, now)[tools[|tools| - 1].trackerKey := Position(now, None, None)]
  }

  /** Clear all, key by key: every tool's tracker key gets a position with no
      transform at time `now`; other keys are untouched. */
  lemma {:induction false} ClearedAt(tools: seq<Tool>, latest: map<string, Position>, now: int, k: string)
    ensures Get(Cleared(tools, latest, now), k)
         == if IsTrackerKeyOf(tools, k) then Some(Position(now, None, None)) else Get(latest, k)
    decreases |tools|
  {
    if tools != [] {
      var n := |tools|;
      var prefix := tools[..n - 1];
      var last := tools[n - 1];
      ClearedAt(prefix, latest, now, k);
      TrackerKeyOfSnoc(prefix, last, k);
      assert tools == prefix + [last];
    }
  }

  // ------------------------------------------------------------ snapshots

  /** The positions `exportPositionsSnapshot` writes: all of them, or only
      those without a `relativeTo` unless relative ones are asked for. */
  function Exported(latest: map<string, Position>, includeRelative: bool): (r: map<string, Position>)
    ensures forall k :: k in r <==> k in latest && (includeRelative || latest[k].relativeTo.None?)
    ensures forall k :: k in r ==> r[k] == latest[k]
  {
    if includeRelative then latest
    else map k | k in latest && latest[k].relativeTo.None? :: latest[k]
  }

  /** The pose store after `importPositionsSnapshot`: every entry of the
      snapshot is recorded under the key found in it, its time replaced by
      `now`; keys the snapshot does not mention are untouched. */
  function Imported(latest: map<string, Position>, snapshot: map<string, Position>, now: int): (r: map<string, Position>)
    ensures forall k :: k in r <==> k in latest || k in snapshot
    ensures forall k :: k in snapshot ==> r[k] == snapshot[k].(time := now)
    ensures forall k :: k in latest && k !in snapshot ==> r[k] == latest[k]
  {
    latest + map k | k in snapshot :: snapshot[k].(time := now)
  }

  /** Export then import: every exported position comes back with the same
      transform and `relativeTo` (only its time is new), whatever the store
      held before; positions left out of the export are not touched. */
  lemma ExportImportRoundTrip(latest: map<string, Position>, base: map<string, Position>, includeRelative: bool, now: int)
    ensures var r := Imported(base, Exported(latest, includeRelative), now);
            forall k :: k in latest ==>
              if includeRelative || latest[k].relativeTo.None?
              then k in r && r[k] == latest[k].(time := now)
              else Get(r, k) == Get(base, k)
  {
  }

  // -------------------------------------------------------------- picking

  /** How a user command that starts with a pick ended: normally, cancelled
      with nothing changed, or by raising. */
  datatype Outcome = Completed | Cancelled | Raised(error: Error)

  /** The tool a pick designates: the picked name is not one of the panel's
      actors (the selection is cancelled), or its suffix or tool key cannot
      be resolved (the code raises), or it names a tool of the registry. */
  datatype Picked = Unrecognized | PickFailed(error: Error) | PickedTool(tool: Tool)

  /** The pick resolution of `selectAndClearToolPos` and `selectAndMoveTool`:
      find the picked actor among `actorKeys`, strip `_tracker` or `_tool`,
      and look the remaining key up in the registry. */
  function PickTool(actorKeys: set<string>, tools: seq<Tool>, picked: string): (r: Picked)
    ensures r.Unrecognized? <==> picked !in actorKeys
    ensures r.PickedTool? ==> r.tool in tools
    ensures r.PickedTool? ==> picked == ActorKey(r.tool.key, TrackerAspect) || picked == ActorKey(r.tool.key, ToolAspect)
    ensures r.PickFailed? ==> r.error == NotImplemented(picked) || r.error.KeyNotFound?
  {
    if picked !in actorKeys then Unrecognized
    else match ResolveToolKey(picked)
      case Err(e) => PickFailed(e)
      case Ok(toolKey) =>
        ResolvedIsActorKey(picked, toolKey);
        match FindTool(tools, toolKey)
        case None => PickFailed(KeyNotFound(toolKey))
        case Some(t) => PickedTool(t)
  }

  /** In a registry with distinct keys, looking up a tool's key finds it. */
  lemma {:induction false} FindToolOfKey(tools: seq<Tool>, t: Tool)
    requires DistinctKeys(tools) && t in tools
    ensures FindTool(tools, t.key) == Some(t)
  {
    if tools[0] != t {
      assert tools[0].key != t.key by {
        var i :| 0 <= i < |tools| && tools[i] == t;
      }
      assert t in tools[1..];
      assert DistinctKeys(tools[1..]) by {
        forall i, j | 0 <= i < j < |tools| - 1 ensures tools[1..][i].key != tools[1..][j].key {
          assert tools[1..][i] == tools[i + 1] && tools[1..][j] == tools[j + 1];
        }
      }
      FindToolOfKey(tools[1..], t);
    }
  }

  /** Picking one of a tool's own actors designates that tool if it is the
      tracker or tool mesh, and raises for a subject surface. */
  lemma PickOwnActor(actorKeys: set<string>, tools: seq<Tool>, t: Tool, a: Aspect)
    requires DistinctKeys(tools) && t in tools
    requires ActorKey(t.key, a) in actorKeys
    ensures PickTool(actorKeys, tools, ActorKey(t.key, a))
         == if a == SubjectAspect then PickFailed(NotImplemented(ActorKey(t.key, a))) else PickedTool(t)
  {
    ResolveActorKey(t.key, a);
    FindToolOfKey(tools, t);
  }

  // --------------------------------------------------------- drag session

  /** What the `onNewTransf` callbacks of one drag leave in the pose store,
      and the error that stopped them, if any. */
  datatype DragResult = DragResult(latest: map<string, Position>, failure: Option<Error>)

  /** Replays the drag updates `drags` of the actor `pickedKey` of tool `t`:
      each is backed out and recorded under the tool's tracker key at `now`;
      the first that cannot be backed out stops the drag. */
  function ReplayDrag(t: Tool, pickedKey: string, drags: seq<Transf>, latest: map<string, Position>, now: int): DragResult
    decreases |drags|
  {
    if drags == [] then DragResult(latest, None)
    else
      var prev := ReplayDrag(t, pickedKey, drags[..|drags| - 1], latest, now);
      if prev.failure.Some? then prev
      else match BackOut(t, pickedKey, drags[|drags| - 1])
        case Err(e) => DragResult(prev.latest, Some(e))
        case Ok(pose) => DragResult(prev.latest[t.trackerKey := Position(now, Some(pose), None)], None)
  }

  /** Whether a drag update can be backed out depends on the tool and the
      picked key only: either every update is recorded and the store ends
      with the pose of the last one, or none is and the store is unchanged. */
  lemma {:induction false} ReplayDragOutcome(t: Tool, pickedKey: string, drags: seq<Transf>, latest: map<string, Position>, now: int)
    requires drags != []
    ensures var r := ReplayDrag(t, pickedKey, drags, latest, now);
            var last := BackOut(t, pickedKey, drags[|drags| - 1]);
            && (r.failure.None? <==> last.Ok?)
            && (last.Ok? ==> r.latest == latest[t.trackerKey := Position(now, Some(last.value), None)])
            && (last.Err? ==> r.latest == latest && r.failure == Some(last.error))
    decreases |drags|
  {
    var n := |drags|;
    if n > 1 {
      ReplayDragOutcome(t, pickedKey, drags[..n - 1], latest, now);
    }
  }

  /** End to end: once a drag of a tracker or tool mesh has finished and the
      key has left the moving set, the next refresh shows that mesh, and its
      displayed transform is the last dragged one (in any group, under the
      assumption on `concatenateTransforms` stated with `Eval`). */
  lemma DragThenRefreshShowsDragged<M(!new)>(
    g: Algebra<M>, s: PanelState, tools: seq<Tool>, subject: Subject, t: Tool, a: Aspect,
    drags: seq<Transf>, now: int, later: int)
    requires GroupLaws(g) && DistinctKeys(tools)
    requires t in tools && a != SubjectAspect && t.isActive && DoShow(t, a, subject)
    requires s.initialized || s.initializing
    requires ActorKey(t.key, a) !in s.moving
    requires drags != [] && ReplayDrag(t, ActorKey(t.key, a), drags, s.latest, now).failure.None?
    ensures var r := Refreshed(s.(latest := ReplayDrag(t, ActorKey(t.key, a), drags, s.latest, now).latest),
                               tools, subject, later);
            var k := ActorKey(t.key, a);
            && k in r.actors && r.actors[k].visible && r.actors[k].transform.Some?
            && Eval(g, r.actors[k].transform.value) == Eval(g, drags[|drags| - 1])
  {
    var k := ActorKey(t.key, a);
    var w := drags[|drags| - 1];
    var dragged := ReplayDrag(t, k, drags, s.latest, now).latest;
    ReplayDragOutcome(t, k, drags, s.latest, now);
    var pose := BackOut(t, k, w).value;
    var st := s.(latest := dragged);
    var r := Refreshed(st, tools, subject, later);
    assert t.trackerKey in r.latest && r.latest[t.trackerKey] == Position(now, Some(pose), None);
    assert a in AspectsOf(t);
    PassReconciles(tools, Env(r.latest, s.moving, subject), s.actors, t, a);
    DragRoundTrip(g, t, a, w);
  }
}
