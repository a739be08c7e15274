/** The simulated-tools panel as an object: its fields are updated in place
    by the refresh, the tool-change handler and the user commands, and each
    method is proved to leave the state the functions of `Bindings` and
    `Commands` describe. */
module Panel {
  import opened Transforms
  import opened Poses
  import opened Tools
  import opened Bindings
  import opened Commands

  /** The positions client, reduced to its local pose store. Recording a
      position (synchronously or not) updates that store. */
  class PositionsClient {
    var latestPositions: map<string, Position>

    constructor (latest: map<string, Position>)
      ensures latestPositions == latest
    {
      latestPositions := latest;
    }

    method RecordNewPosition(key: string, position: Position)
      modifies this
      ensures latestPositions == old(latestPositions)[key := position]
    {
      latestPositions := latestPositions[key := position];
    }
  }

  class SimulatedToolsPanel {
    const positionsClient: PositionsClient
    var configPoses: map<string, SavedPose>       // config.poses
    var actors: map<string, Actor>                // _actors
    var currentlyMovingActors: set<string>        // _currentlyMovingActors
    var hasRestoredPositions: bool                // _hasRestoredPositions
    var hasInitialized: bool
    var isInitializing: bool

    /** A panel whose session has just been set: no actors, nothing moving,
        nothing restored yet, not initialised. */
    constructor (client: PositionsClient, poses: map<string, SavedPose>)
      ensures positionsClient == client
      ensures State() == PanelState(client.latestPositions, poses, map[], {}, false, false, false)
    {
      positionsClient := client;
      configPoses := poses;
      actors := map[];
      currentlyMovingActors := {};
      hasRestoredPositions := false;
      hasInitialized := false;
      isInitializing := false;
    }

    function State(): PanelState
      reads this, positionsClient
    {
      PanelState(positionsClient.latestPositions, configPoses, actors, currentlyMovingActors,
                 hasRestoredPositions, hasInitialized, isInitializing)
    }

    // ------------------------------------------------------------ refresh

    /** `_onLatestPositionsChanged`. */
    method OnLatestPositionsChanged(tools: seq<Tool>, subject: Subject, now: int)
      modifies this, positionsClient
      ensures State() == Refreshed(old(State()), tools, subject, now)
    {
      if !hasRestoredPositions {
        RestorePositions(now);
        hasRestoredPositions := true;
      }
      MirrorPoses(tools);
      if !hasInitialized && !isInitializing {
        return;
      }
      RenderTools(tools, subject);
    }

    /** The rendering loop over all tools. */
    method RenderTools(tools: seq<Tool>, subject: Subject)
      modifies this`actors
      ensures actors == PassActors(tools, Env(positionsClient.latestPositions, currentlyMovingActors, subject), old(actors))
    {
      ghost var env := Env(positionsClient.latestPositions, currentlyMovingActors, subject);
      for i := 0 to |tools|
        invariant actors == PassActors(tools[..i], env, old(actors))
      {
        RefreshToolActors(tools[i], subject);
        assert tools[..i + 1][..i] == tools[..i];
      }
      assert tools[..|tools|] == tools;
    }

    /** The startup restore: record each configuration pose that has a
        transform under a tracker key the store does not know yet. */
    method RestorePositions(now: int)
      modifies positionsClient
      ensures positionsClient.latestPositions == Restored(old(positionsClient.latestPositions), configPoses, now)
    {
      ghost var latest0 := positionsClient.latestPositions;
      var remaining := configPoses.Keys;
      while remaining != {}
        invariant remaining <= configPoses.Keys
        invariant forall k :: k in positionsClient.latestPositions
                    <==> k in latest0 || (k in configPoses && k !in remaining && configPoses[k].transf.Some?)
        invariant forall k :: k in latest0 ==> positionsClient.latestPositions[k] == latest0[k]
        invariant forall k :: k in positionsClient.latestPositions && k !in latest0 ==>
                    positionsClient.latestPositions[k] == Position(now, configPoses[k].transf, configPoses[k].relativeTo)
        decreases remaining
      {
        var trackerKey :| trackerKey in remaining;
        remaining := remaining - {trackerKey};
        var pose := configPoses[trackerKey];
        if pose.transf.None? {
          continue;
        }
        if trackerKey !in positionsClient.latestPositions {
          positionsClient.RecordNewPosition(trackerKey, Position(now, pose.transf, pose.relativeTo));
        }
      }
      ghost var r := Restored(latest0, configPoses, now);
      assert positionsClient.latestPositions.Keys == r.Keys;
    }

    /** The config mirror: copy each tool's live transform into its
        configuration entry, creating the entry only when there is one. */
    method MirrorPoses(tools: seq<Tool>)
      modifies this`configPoses
      ensures configPoses == Mirrored(tools, positionsClient.latestPositions, old(configPoses))
    {
      for i := 0 to |tools|
        invariant configPoses == Mirrored(tools[..i], positionsClient.latestPositions, old(configPoses))
      {
        var trackerKey := tools[i].trackerKey;
        var transf := LatestTransf(positionsClient.latestPositions, trackerKey);
        if transf.None? && trackerKey !in configPoses {
          // don't add now
        } else {
          if trackerKey !in configPoses {
            configPoses := configPoses[trackerKey := SavedPose(None, None)];
          }
          configPoses := configPoses[trackerKey := configPoses[trackerKey].(transf := transf)];
        }
        assert tools[..i + 1][..i] == tools[..i];
      }
      assert tools[..|tools|] == tools;
    }

    /** One iteration of the rendering loop: the actors of tool `t`. */
    method RefreshToolActors(t: Tool, subject: Subject)
      modifies this`actors
      ensures actors == StepAspects(t, AspectsOf(t), Env(positionsClient.latestPositions, currentlyMovingActors, subject), old(actors))
    {
      ghost var env := Env(positionsClient.latestPositions, currentlyMovingActors, subject);
      var aspects := AspectsOf(t);
      var pose := LatestTransf(positionsClient.latestPositions, t.trackerKey);
      if !t.isActive || pose.None? {
        // no valid position available
        for j := 0 to |aspects|
          invariant actors == StepAspects(t, aspects[..j], env, old(actors))
        {
          HideActor(t, aspects[j], subject);
          assert aspects[..j + 1][..j] == aspects[..j];
        }
        assert aspects[..|aspects|] == aspects;
        return;
      }
      for j := 0 to |aspects|
        invariant actors == StepAspects(t, aspects[..j], env, old(actors))
      {
        RefreshActor(t, aspects[j], subject, pose.value);
        assert aspects[..j + 1][..j] == aspects[..j];
      }
      assert aspects[..|aspects|] == aspects;
    }

    /** One actor key of a tool that is inactive or has no pose: hide the
        actor if it exists and is visible. */
    method HideActor(t: Tool, a: Aspect, subject: Subject)
      requires !t.isActive || LatestTransf(positionsClient.latestPositions, t.trackerKey).None?
      modifies this`actors
      ensures var k := ActorKey(t.key, a);
              actors == Put(old(actors), k, ActorAfter(t, a, Env(positionsClient.latestPositions, currentlyMovingActors, subject), Get(old(actors), k)))
    {
      var actorKey := ActorKey(t.key, a);
      if actorKey in actors && actors[actorKey].visible {
        actors := actors[actorKey := actors[actorKey].(visible := false)];
      }
      assert actorKey in actors ==> actors[actorKey := actors[actorKey]] == actors;
    }

    /** One actor key of an active tool with a pose: skip it while it is
        dragged, otherwise work out `doShow`, create and place the mesh when
        it is shown, and reconcile its visibility. */
    method RefreshActor(t: Tool, a: Aspect, subject: Subject, pose: Transf)
      requires t.isActive && LatestTransf(positionsClient.latestPositions, t.trackerKey) == Some(pose)
      modifies this`actors
      ensures var k := ActorKey(t.key, a);
              actors == Put(old(actors), k, ActorAfter(t, a, Env(positionsClient.latestPositions, currentlyMovingActors, subject), Get(old(actors), k)))
    {
      var actorKey := ActorKey(t.key, a);
      if actorKey in currentlyMovingActors {
        // not updated while it is being moved
        assert actorKey in actors ==> actors[actorKey := actors[actorKey]] == actors;
        return;
      }
      var doShow := false;
      if a != SubjectAspect {
        var doRender := if a == TrackerAspect then t.doRenderTracker else t.doRenderTool;
        var hasStl := if a == TrackerAspect then t.hasTrackerStl else t.hasToolStl;
        if doRender && hasStl {
          var stlToTracker := StlToTracker(t, a);
          if stlToTracker.Some? {
            doShow := true;
            PlaceActor(actorKey, Concatenate(stlToTracker.value, pose));
          }
        }
      }
      if a == SubjectAspect && subject.trackerToMRITransf.Some? && subject.hasSkinSurf {
        doShow := true;
        PlaceActor(actorKey, MatMul(pose, Invert(subject.trackerToMRITransf.value)));
      }
      if actorKey in actors {
        if doShow && !actors[actorKey].visible {
          actors := actors[actorKey := actors[actorKey].(visible := true)];
        } else if !doShow && actors[actorKey].visible {
          actors := actors[actorKey := actors[actorKey].(visible := false)];
        }
      }
    }

    /** Create the mesh of `actorKey` if it does not exist yet (a new mesh is
        visible), then set its user transform. */
    method PlaceActor(actorKey: string, transform: Transf)
      modifies this`actors
      ensures actors == old(actors)[actorKey := Actor(actorKey !in old(actors) || old(actors)[actorKey].visible, Some(transform))]
    {
      if actorKey !in actors {
        actors := actors[actorKey := Actor(true, None)];
      }
      actors := actors[actorKey := actors[actorKey].(transform := Some(transform))];
    }

    // -------------------------------------------------------- tool change

    /** `_onToolsChanged`: drop the tracker and tool actors of every current
        tool, and refresh only if one was actually dropped. */
    method OnToolsChanged(tools: seq<Tool>, subject: Subject, now: int)
      modifies this, positionsClient
      ensures var dropped := WithoutToolActors(tools, old(actors));
              State() == if dropped == old(actors) then old(State())
                         else Refreshed(old(State()).(actors := dropped), tools, subject, now)
    {
      ghost var m0 := actors;
      var didRemove := false;
      for i := 0 to |tools|
        modifies this`actors
        invariant actors == WithoutToolActors(tools[..i], m0)
        invariant actors.Keys <= m0.Keys
        invariant didRemove <==> actors != m0
      {
        var removed := DropToolActors(tools[i].key);
        didRemove := didRemove || removed;
        assert tools[..i + 1][..i] == tools[..i];
      }
      assert tools[..|tools|] == tools;
      if didRemove {
        OnLatestPositionsChanged(tools, subject, now);
      }
    }

    /** The inner loop of `_onToolsChanged`: drop the tracker and tool actors
        of the tool `key`, and say whether there was one. */
    method DropToolActors(key: string) returns (removed: bool)
      modifies this`actors
      ensures actors == old(actors) - {ActorKey(key, TrackerAspect), ActorKey(key, ToolAspect)}
      ensures removed <==> ActorKey(key, TrackerAspect) in old(actors) || ActorKey(key, ToolAspect) in old(actors)
    {
      var actorKeysForTool := [ActorKey(key, TrackerAspect), ActorKey(key, ToolAspect)];
      removed := false;
      for j := 0 to |actorKeysForTool|
        invariant actors == old(actors) - (set x | x in actorKeysForTool[..j])
        invariant removed <==> exists x :: x in actorKeysForTool[..j] && x in old(actors)
      {
        var actorKey := actorKeysForTool[j];
        assert actorKeysForTool[..j + 1] == actorKeysForTool[..j] + [actorKey];
        if actorKey in actors {
          actors := actors - {actorKey};
          removed := true;
        }
      }
      assert actorKeysForTool[..|actorKeysForTool|] == actorKeysForTool;
    }

    // ------------------------------------------------------- bulk writes

    /** `clearAllPositions`. */
    method ClearAllPositions(tools: seq<Tool>, now: int)
      modifies positionsClient
      ensures positionsClient.latestPositions == Cleared(tools, old(positionsClient.latestPositions), now)
    {
      for i := 0 to |tools|
        invariant positionsClient.latestPositions == Cleared(tools[..i], old(positionsClient.latestPositions), now)
      {
        positionsClient.RecordNewPosition(tools[i].trackerKey, Position(now, None, None));
        assert tools[..i + 1][..i] == tools[..i];
      }
      assert tools[..|tools|] == tools;
    }

    /** `zeroAllPositions`. */
    method ZeroAllPositions(tools: seq<Tool>, now: int)
      modifies positionsClient
      ensures positionsClient.latestPositions == Zeroed(tools, old(positionsClient.latestPositions), now)
    {
      for i := 0 to |tools|
        invariant positionsClient.latestPositions == Zeroed(tools[..i], old(positionsClient.latestPositions), now)
      {
        var trackerKey := tools[i].trackerKey;
        assert tools[..i + 1][..i] == tools[..i];
        var pos := Get(positionsClient.latestPositions, trackerKey);
        if pos.Some? && pos.value.relativeTo.Some? {
          continue;
        }
        positionsClient.RecordNewPosition(trackerKey, Position(now, Some(Identity), None));
      }
      assert tools[..|tools|] == tools;
    }

    /** The recording loop of `importPositionsSnapshot`, given the decoded
        snapshot. */
    method ImportPositionsSnapshot(snapshot: map<string, Position>, now: int)
      modifies positionsClient
      ensures positionsClient.latestPositions == Imported(old(positionsClient.latestPositions), snapshot, now)
    {
      ghost var latest0 := positionsClient.latestPositions;
      var remaining := snapshot.Keys;
      while remaining != {}
        invariant remaining <= snapshot.Keys
        invariant forall k :: k in positionsClient.latestPositions <==> k in latest0 || (k in snapshot && k !in remaining)
        invariant forall k :: k in snapshot && k !in remaining ==> positionsClient.latestPositions[k] == snapshot[k].(time := now)
        invariant forall k :: k in latest0 && (k !in snapshot || k in remaining) ==> positionsClient.latestPositions[k] == latest0[k]
        decreases remaining
      {
        var key :| key in remaining;
        remaining := remaining - {key};
        var tsPos := snapshot[key].(time := now);
        positionsClient.RecordNewPosition(key, tsPos);
      }
      ghost var r := Imported(latest0, snapshot, now);
      assert positionsClient.latestPositions.Keys == r.Keys;
    }

    /** The positions `exportPositionsSnapshot` writes out. */
    method ExportPositionsSnapshot(includeRelative: bool) returns (positions: map<string, Position>)
      ensures positions == Exported(positionsClient.latestPositions, includeRelative)
    {
      positions := positionsClient.latestPositions;
      if !includeRelative {
        var keys := positions.Keys;
        while keys != {}
          invariant keys <= positions.Keys
          invariant forall k :: k in positions <==> (k in positionsClient.latestPositions
                      && (k in keys || positionsClient.latestPositions[k].relativeTo.None?))
          invariant forall k :: k in positions ==> positions[k] == positionsClient.latestPositions[k]
          decreases keys
        {
          var key :| key in keys;
          keys := keys - {key};
          if positions[key].relativeTo.Some? {
            positions := positions - {key};
          }
        }
      }
      ghost var r := Exported(positionsClient.latestPositions, includeRelative);
      assert positions.Keys == r.Keys;
    }

    // ---------------------------------------------------------- commands

    /** `clearToolPos`: forget the pose of a tool, raising if the key is not a
        tool. */
    method ClearToolPos(tools: seq<Tool>, toolKey: string, now: int) returns (outcome: Outcome)
      modifies positionsClient
      ensures FindTool(tools, toolKey).None? ==>
                outcome == Raised(KeyNotFound(toolKey)) && unchanged(positionsClient)
      ensures FindTool(tools, toolKey).Some? ==>
                && outcome == Completed
                && positionsClient.latestPositions
                   == old(positionsClient.latestPositions)[FindTool(tools, toolKey).value.trackerKey := Position(now, None, None)]
    {
      match FindTool(tools, toolKey)
      case None =>
        outcome := Raised(KeyNotFound(toolKey));
      case Some(tool) =>
        positionsClient.RecordNewPosition(tool.trackerKey, Position(now, None, None));
        outcome := Completed;
    }

    /** `selectAndClearToolPos`: clear the given tool, or the tool of the
        picked actor. */
    method SelectAndClearToolPos(tools: seq<Tool>, toolKey: Option<string>, picked: string, now: int)
      returns (outcome: Outcome)
      modifies positionsClient
      ensures toolKey.None? && PickTool(actors.Keys, tools, picked).Unrecognized? ==>
                outcome == Cancelled && unchanged(positionsClient)
      ensures toolKey.None? && PickTool(actors.Keys, tools, picked).PickFailed? ==>
                outcome == Raised(PickTool(actors.Keys, tools, picked).error) && unchanged(positionsClient)
      ensures toolKey.None? && PickTool(actors.Keys, tools, picked).PickedTool? ==>
                && outcome == Completed
                && positionsClient.latestPositions
                   == old(positionsClient.latestPositions)[PickTool(actors.Keys, tools, picked).tool.trackerKey := Position(now, None, None)]
      ensures toolKey.Some? && FindTool(tools, toolKey.value).None? ==>
                outcome == Raised(KeyNotFound(toolKey.value)) && unchanged(positionsClient)
      ensures toolKey.Some? && FindTool(tools, toolKey.value).Some? ==>
                && outcome == Completed
                && positionsClient.latestPositions
                   == old(positionsClient.latestPositions)[FindTool(tools, toolKey.value).value.trackerKey := Position(now, None, None)]
    {
      var key: string;
      if toolKey.None? {
        match PickTool(actors.Keys, tools, picked)
        case Unrecognized =>
          outcome := Cancelled;
          return;
        case PickFailed(e) =>
          outcome := Raised(e);
          return;
        case PickedTool(tool) =>
          key := tool.key;
      } else {
        key := toolKey.value;
      }
      outcome := ClearToolPos(tools, key, now);
    }

    /** `selectAndMoveTool` on its normal path: resolve the pick, mark the
        actor as moving, record the backed-out pose of every drag update, and
        unmark it when the drag ends. An update that cannot be backed out
        raises inside the `onNewTransf` callback. Whether that exception
        leaves `interactivelyMoveActor` is decided by code outside this
        model, so it is the parameter `callbackErrorsPropagate`: if it does,
        the session ends by raising with the actor still marked; if it is
        swallowed, the failed update records nothing and the session ends
        normally. */
    method SelectAndMoveTool(tools: seq<Tool>, picked: string, drags: seq<Transf>, now: int,
                             callbackErrorsPropagate: bool)
      returns (outcome: Outcome)
      modifies this`currentlyMovingActors, positionsClient
      ensures var p := PickTool(actors.Keys, tools, picked);
              !p.PickedTool? ==>
                && outcome == (if p.Unrecognized? then Cancelled else Raised(p.error))
                && unchanged(positionsClient) && currentlyMovingActors == old(currentlyMovingActors)
      ensures var p := PickTool(actors.Keys, tools, picked);
              p.PickedTool? && picked in old(currentlyMovingActors) ==>
                && outcome == Raised(AlreadyMoving(picked))
                && unchanged(positionsClient) && currentlyMovingActors == old(currentlyMovingActors)
      ensures var p := PickTool(actors.Keys, tools, picked);
              p.PickedTool? && picked !in old(currentlyMovingActors) ==>
                var r := ReplayDrag(p.tool, picked, drags, old(positionsClient.latestPositions), now);
                && positionsClient.latestPositions == r.latest
                && (r.failure.None? ==> outcome == Completed && currentlyMovingActors == old(currentlyMovingActors))
                && (r.failure.Some? && callbackErrorsPropagate ==>
                      outcome == Raised(r.failure.value) && currentlyMovingActors == old(currentlyMovingActors) + {picked})
                && (r.failure.Some? && !callbackErrorsPropagate ==>
                      outcome == Completed && currentlyMovingActors == old(currentlyMovingActors))
    {
      var pickedTool: Tool;
      match PickTool(actors.Keys, tools, picked)
      case Unrecognized =>
        outcome := Cancelled;
        return;
      case PickFailed(e) =>
        outcome := Raised(e);
        return;
      case PickedTool(tool) =>
        pickedTool := tool;
      if picked in currentlyMovingActors {
        outcome := Raised(AlreadyMoving(picked));
        return;
      }
      currentlyMovingActors := currentlyMovingActors + {picked};
      ghost var latest0 := positionsClient.latestPositions;
      for i := 0 to |drags|
        invariant positionsClient.latestPositions == ReplayDrag(pickedTool, picked, drags[..i], latest0, now).latest
        invariant callbackErrorsPropagate ==> ReplayDrag(pickedTool, picked, drags[..i], latest0, now).failure.None?
        invariant currentlyMovingActors == old(currentlyMovingActors) + {picked}
      {
        assert drags[..i + 1][..i] == drags[..i];
        if i > 0 {
          ReplayDragOutcome(pickedTool, picked, drags[..i], latest0, now);
          BackOutOkUniform(pickedTool, picked, drags[..i][i - 1], drags[i]);
        }
        match BackOut(pickedTool, picked, drags[i])
        case Err(e) =>
          if callbackErrorsPropagate {
            ReplayDragStops(pickedTool, picked, drags, i + 1, latest0, now);
            outcome := Raised(e);
            return;
          }
        case Ok(newTrackerToWorldTransf) =>
          positionsClient.RecordNewPosition(pickedTool.trackerKey, Position(now, Some(newTrackerToWorldTransf), None));
      }
      assert drags[..|drags|] == drags;
      currentlyMovingActors := currentlyMovingActors - {picked};
      outcome := Completed;
    }
  }

  /** Once a drag replay has stopped on an error, later updates change
      nothing. */
  lemma {:induction false} ReplayDragStops(t: Tool, pickedKey: string, drags: seq<Transf>, n: nat,
                                           latest: map<string, Position>, now: int)
    requires n <= |drags|
    requires ReplayDrag(t, pickedKey, drags[..n], latest, now).failure.Some?
    ensures ReplayDrag(t, pickedKey, drags, latest, now) == ReplayDrag(t, pickedKey, drags[..n], latest, now)
    decreases |drags|
  {
    if n < |drags| {
      assert drags[..n] == drags[..|drags| - 1][..n];
      ReplayDragStops(t, pickedKey, drags[..|drags| - 1], n, latest, now);
    } else {
      assert drags[..n] == drags;
    }
  }
}
