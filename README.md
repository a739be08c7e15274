# Simulated tools panel: pose and actor bookkeeping

This project models the bookkeeping core of the `SimulatedToolsPanel` of the
NaviNIBS simulated-tools add-on. The panel keeps four things in step:

- the pose store of the positions client: tracker key → latest timestamped
  position, where a position has an optional transform and an optional
  `relativeTo`;
- the persisted `config.poses`;
- the rendered actors `_actors`: actor key → visibility and user transform;
- the set `_currentlyMovingActors` of actors being dragged.

The model covers:

- the refresh `_onLatestPositionsChanged`: the one-shot startup restore, the
  mirror of live poses into the configuration, the early exit before
  initialisation, and the per-tool, per-actor rendering pass;
- the actor removal of `_onToolsChanged`;
- the bulk writes `clearAllPositions` and `zeroAllPositions`;
- the map-level logic of snapshot import and export;
- the pick resolution of `selectAndClearToolPos` and `selectAndMoveTool`,
  with the moving-set handling of a drag session and the transform back-out
  of its `onNewTransf` callback.

## Layout

| file | module | content |
|---|---|---|
| `transforms.dfy` | `Transforms` | Transforms as free terms (`Identity`, `Given`, `MatMul`, `Invert`, `Concatenate`). Group semantics come only through an `Algebra` that satisfies `GroupLaws`. |
| `poses.dfy` | `Poses` | Positions, configuration poses, errors, `Option` / `Result`. |
| `tools.dfy` | `Tools` | The tool registry record, actor keys, pick-suffix resolution, the display transform of an actor, and the drag back-out. |
| `bindings.dfy` | `Bindings` | The refresh as functions of the state before it (`ActorAfter`, `PassActors`, `Restored`, `Mirrored`, `Refreshed`), the tool-change removal, and their properties. |
| `commands.dfy` | `Commands` | Clear all, zero all, export, import, the pick, and the drag replay. |
| `panel.dfy` | `Panel` | The `PositionsClient` and `SimulatedToolsPanel` classes. Their fields are updated in place; each method is proved to leave the state the functions above describe. |

The imperative code of the source (the loops of the refresh, the tool-change
handler, the bulk writes, the export deletion loop, the move session) is
modelled as methods with loops in `Panel`. The specifications and their
properties are pure functions and lemmas in `Bindings` and `Commands`.

## Assumptions

- **Transforms.** `concatenateTransforms` and `invertTransform` are library
  code that is not part of this model. A transform is therefore the
  expression that built it. The one place where the model gives transforms a
  meaning is the drag round trip. There, `Eval` interprets transforms in any
  group and ASSUMES that `concatenateTransforms([a, b])` denotes `b @ a`,
  i.e. that the first transform is applied first.
- **Actor identity.** The source finds a picked actor by object identity
  (`actor is pickedActor`). Every actor is created with `name=actorKey`, so
  the model passes the pick as that name.
- **Tool registry.** `session.tools` is a sequence of tool records. The model
  assumes each record's dictionary key equals its `key` attribute. Lemmas
  that need dictionary semantics require `DistinctKeys`.
- **Time.** Time is a parameter `now`.

## Notes on the code's behaviour

- **Tool change.** `_onToolsChanged` (`SimulatedToolsPanel.py:151-162`) does
  not remove the actors of tools that left the registry; they stay in
  `_actors` and are never visited again.
  - It drops the `_tracker` and `_tool` actors of every tool still in the
    registry, and never drops `_subject` actors.
  - It refreshes only when it dropped something. When the panel is
    initialised or initialising, that refresh re-creates those dropped actors
    whose `doShow` holds for an active, posed tool that is not being moved.
    The others stay absent: in particular, a tool change during a drag drops
    the dragged actor, and no refresh re-creates it while the drag lasts.
  - So an actor, once present, can be removed and created anew.
  - `WithoutToolActorsAt` and `OnToolsChanged` state exactly this behaviour.
- **Zero all.** `zeroAllPositions` (`:303-315`) zeroes every tool, active or
  not: it does not test `isActive`. `ZeroedAt` states this rule.
- **`relativeTo`.** It is only ever a skip condition, for zero all and for
  export. It is never composed through.
- **New actors.** A new actor is visible (the plotter's default). The final
  reconciliation (`:282-288`) then sets its visibility to `doShow`.

## Model

| member | source | states |
|---|---|---|
| `Transforms.RedisplayBackedOut` | Navigator/GUI/ViewPanels/SimulatedToolsPanel.py:443-455 | In a group: a pose equal to the dragged transform times the inverse of an offset, displayed again through that offset, evaluates to the dragged transform. |
| `Tools.ActorKeyInjective` | Navigator/GUI/ViewPanels/SimulatedToolsPanel.py:207-209 | Two actor keys `key + suffix` are equal iff their tool keys and aspects are equal. The three suffixes end in different letters, so keys never collide across tools or aspects. |
| `Tools.ActorKeyEndings` | Navigator/GUI/ViewPanels/SimulatedToolsPanel.py:400-405 | An actor key ends with `_tracker` iff it is a tracker actor, and ends with `_tool` iff it is a tool actor. |
| `Tools.ResolveActorKey` | Navigator/GUI/ViewPanels/SimulatedToolsPanel.py:400-405 | Stripping the suffix of a tracker or tool actor key gives back its tool key. A subject actor key raises NotImplementedError. |
| `Tools.ResolvedIsActorKey` | Navigator/GUI/ViewPanels/SimulatedToolsPanel.py:424-429 | Conversely, a picked key that resolves to a tool key is that tool's tracker or tool actor key. |
| `Tools.FindTool` | Navigator/GUI/ViewPanels/SimulatedToolsPanel.py:425-427 | `session.tools[key]`: a found tool is in the registry under that key. No tool found means no tool has that key, which is the KeyError case. |
| `Tools.BackOutOkUniform` | Navigator/GUI/ViewPanels/SimulatedToolsPanel.py:441-455 | Whether a drag update can be backed out does not depend on the dragged transform, only on the tool and the picked key. |
| `Tools.EvalBackOut` | Navigator/GUI/ViewPanels/SimulatedToolsPanel.py:441-455 | A successful back-out of a dragged tracker or tool mesh evaluates to the dragged transform times the inverse of that mesh's STL-to-tracker offset. |
| `Tools.DragRoundTrip` | Navigator/GUI/ViewPanels/SimulatedToolsPanel.py:443-455 | The pose recorded by `onNewTransf`, displayed again through the mesh offset used by the refresh (`:258-262`), evaluates to the dragged transform, under the group assumption. |
| `Bindings.ActorAfterIdempotent` | Navigator/GUI/ViewPanels/SimulatedToolsPanel.py:211-288 | Visiting one actor key twice with the same inputs is the same as visiting it once. |
| `Bindings.StepAspectsAt` | Navigator/GUI/ViewPanels/SimulatedToolsPanel.py:218-288 | Within one tool's loop over its actor keys, each visited key ends as `ActorAfter` of its previous value. |
| `Bindings.StepAspectsOther` | Navigator/GUI/ViewPanels/SimulatedToolsPanel.py:218-288 | One tool's loop leaves every other actor key alone. |
| `Bindings.PassOther` | Navigator/GUI/ViewPanels/SimulatedToolsPanel.py:204-288 | The rendering pass leaves every actor it does not visit unchanged, including the actors of tools no longer in the registry. |
| `Bindings.PassAt` | Navigator/GUI/ViewPanels/SimulatedToolsPanel.py:204-288 | Each actor key of each tool ends the pass as `ActorAfter` of what it held before: hidden if the tool is inactive or unposed, untouched if moving, shown with the display transform if `doShow`, hidden otherwise. |
| `Bindings.PassHidesUnposed` | Navigator/GUI/ViewPanels/SimulatedToolsPanel.py:211-216 | For an inactive or unposed tool, each existing actor is hidden and keeps its transform, even if it is moving. No actor is created. |
| `Bindings.PassSkipsMoving` | Navigator/GUI/ViewPanels/SimulatedToolsPanel.py:221-223 | For an active, posed tool, an actor in the moving set is neither created nor changed. |
| `Bindings.PassReconciles` | Navigator/GUI/ViewPanels/SimulatedToolsPanel.py:225-288 | For an active, posed, non-moving actor: it exists after the pass iff it existed before or `doShow` holds. It is visible iff `doShow`. When shown, it carries the display transform for the latest pose; when hidden, it keeps its old transform. |
| `Bindings.PassCreatesOnlyShown` | Navigator/GUI/ViewPanels/SimulatedToolsPanel.py:239-251 | No actor is removed. An actor is created only for an active, posed, non-moving tool whose `doShow` holds (doRender not False, STL path present, offset present; for the subject, registration and skin surface present). |
| `Bindings.PassIdempotent` | Navigator/GUI/ViewPanels/SimulatedToolsPanel.py:282-288 | A second pass with unchanged inputs creates no actor, flips no visibility and sets no other transform. |
| `Bindings.Restored` | Navigator/GUI/ViewPanels/SimulatedToolsPanel.py:168-187 | The restore adds exactly the configuration poses that have a transform and whose tracker key is absent from the store, each stamped `now` with its `relativeTo`. Existing entries, including those with no transform, are kept. |
| `Bindings.MirrorAt` | Navigator/GUI/ViewPanels/SimulatedToolsPanel.py:189-197 | After the mirror, a tracker key with a live transform or an existing entry holds the live transform (possibly None) and its old `relativeTo`. A tracker key with neither gets no entry. Other entries are untouched. |
| `Bindings.MirrorIdempotent` | Navigator/GUI/ViewPanels/SimulatedToolsPanel.py:189-197 | Mirroring the same live poses twice is the same as mirroring them once. |
| `Bindings.Refreshed` | Navigator/GUI/ViewPanels/SimulatedToolsPanel.py:164-200 | After a refresh the restored flag is set. An already-restored store is not changed. The actors are untouched when the panel is neither initialised nor initialising. The moving set and the initialisation flags are kept. |
| `Bindings.RefreshMirrorsLive` | Navigator/GUI/ViewPanels/SimulatedToolsPanel.py:189-197 | After a refresh, every tool whose tracker key has a live transform or a configuration entry has that live transform in its entry. A tool with neither has no entry. |
| `Bindings.RefreshIdempotent` | Navigator/GUI/ViewPanels/SimulatedToolsPanel.py:164-291 | A second refresh with the same tools and subject changes nothing, whatever its time: the restore does not run again, and the mirror and the pass are idempotent. |
| `Bindings.WithoutToolActorsAt` | Navigator/GUI/ViewPanels/SimulatedToolsPanel.py:151-159 | Exactly the `_tracker` and `_tool` actors of the current tools are dropped. Subject actors and actors of other keys are kept. |
| `Commands.ZeroedAt` | Navigator/GUI/ViewPanels/SimulatedToolsPanel.py:303-315 | Zero all records the identity at `now` for every tool's tracker key, active or not, unless its stored position has a `relativeTo`; those are left unchanged. Other keys are untouched. |
| `Commands.ClearedAt` | Navigator/GUI/ViewPanels/SimulatedToolsPanel.py:293-301 | Clear all records a position with no transform at `now` for every tool's tracker key. Other keys are untouched. |
| `Commands.Exported` | Navigator/GUI/ViewPanels/SimulatedToolsPanel.py:362-368 | The export holds every stored position, or, unless relative poses are included, exactly those with no `relativeTo`. Values are unchanged. |
| `Commands.Imported` | Navigator/GUI/ViewPanels/SimulatedToolsPanel.py:337-344 | The import records every snapshot entry under its own key with its time replaced by `now`. Keys the snapshot does not mention are untouched. |
| `Commands.ExportImportRoundTrip` | Navigator/GUI/ViewPanels/SimulatedToolsPanel.py:337-368 | Export then import gives back every exported position with only its time renewed. A filtered-out relative position leaves the target's entry as it was. |
| `Commands.PickTool` | Navigator/GUI/ViewPanels/SimulatedToolsPanel.py:419-429 | A pick is cancelled iff the picked name is not an actor. A resolved tool is in the registry, and the picked key is its tracker or tool actor. A failure is NotImplementedError on the picked key or a KeyError. |
| `Commands.FindToolOfKey` | Navigator/GUI/ViewPanels/SimulatedToolsPanel.py:425-427 | In a registry with distinct keys, looking up a tool's key finds that tool. |
| `Commands.PickOwnActor` | Navigator/GUI/ViewPanels/SimulatedToolsPanel.py:395-405 | Picking a tool's own tracker or tool actor designates that tool. Picking its subject actor raises NotImplementedError. |
| `Commands.ReplayDragOutcome` | Navigator/GUI/ViewPanels/SimulatedToolsPanel.py:436-469 | A drag records either every update or none: on success the tracker key ends with the backed-out pose of the last update; on a missing offset the store is unchanged and the error is reported. |
| `Commands.DragThenRefreshShowsDragged` | Navigator/GUI/ViewPanels/SimulatedToolsPanel.py:436-473 | After a completed drag of a shown tracker or tool mesh, the next refresh shows that mesh with a transform that evaluates to the last dragged transform, under the group assumption. |
| `Panel.PositionsClient.RecordNewPosition` | Navigator/GUI/ViewPanels/SimulatedToolsPanel.py:179-185 | Recording a position replaces the store's entry for that key and nothing else. |
| `Panel.SimulatedToolsPanel.constructor` | Navigator/GUI/ViewPanels/SimulatedToolsPanel.py:43-49 | A new panel has no actors, nothing moving, and nothing restored. |
| `Panel.SimulatedToolsPanel.OnLatestPositionsChanged` | Navigator/GUI/ViewPanels/SimulatedToolsPanel.py:164-291 | The new panel state is `Refreshed` of the old one. |
| `Panel.SimulatedToolsPanel.RenderTools` | Navigator/GUI/ViewPanels/SimulatedToolsPanel.py:204-288 | The rendering loop leaves `_actors` equal to `PassActors` over all tools. |
| `Panel.SimulatedToolsPanel.RestorePositions` | Navigator/GUI/ViewPanels/SimulatedToolsPanel.py:168-187 | The restore loop leaves the store equal to `Restored`, whatever the iteration order. |
| `Panel.SimulatedToolsPanel.MirrorPoses` | Navigator/GUI/ViewPanels/SimulatedToolsPanel.py:189-197 | The mirror loop leaves `config.poses` equal to `Mirrored`. |
| `Panel.SimulatedToolsPanel.RefreshToolActors` | Navigator/GUI/ViewPanels/SimulatedToolsPanel.py:204-288 | One tool's iteration of the rendering loop leaves `_actors` equal to the `StepAspects` fold over its actor keys. |
| `Panel.SimulatedToolsPanel.HideActor` | Navigator/GUI/ViewPanels/SimulatedToolsPanel.py:211-216 | For an inactive or unposed tool, one actor key ends as `ActorAfter` of its previous value. |
| `Panel.SimulatedToolsPanel.RefreshActor` | Navigator/GUI/ViewPanels/SimulatedToolsPanel.py:218-288 | For an active, posed tool, one actor key ends as `ActorAfter` of its previous value (skip while moving; `doShow`; create; set the transform; reconcile). |
| `Panel.SimulatedToolsPanel.PlaceActor` | Navigator/GUI/ViewPanels/SimulatedToolsPanel.py:239-262 | A missing actor is created visible; an existing one keeps its visibility. Either way it gets the new user transform. |
| `Panel.SimulatedToolsPanel.OnToolsChanged` | Navigator/GUI/ViewPanels/SimulatedToolsPanel.py:151-162 | The current tools' tracker and tool actors are dropped. If none existed, the state is unchanged. Otherwise the state is `Refreshed` of the state with them dropped. |
| `Panel.SimulatedToolsPanel.DropToolActors` | Navigator/GUI/ViewPanels/SimulatedToolsPanel.py:154-159 | One tool's two mesh actors are dropped, and the result says whether either existed. |
| `Panel.SimulatedToolsPanel.ClearAllPositions` | Navigator/GUI/ViewPanels/SimulatedToolsPanel.py:293-301 | The store ends equal to `Cleared`. |
| `Panel.SimulatedToolsPanel.ZeroAllPositions` | Navigator/GUI/ViewPanels/SimulatedToolsPanel.py:303-315 | The store ends equal to `Zeroed`. |
| `Panel.SimulatedToolsPanel.ImportPositionsSnapshot` | Navigator/GUI/ViewPanels/SimulatedToolsPanel.py:340-344 | The store ends equal to `Imported`, whatever the iteration order. |
| `Panel.SimulatedToolsPanel.ExportPositionsSnapshot` | Navigator/GUI/ViewPanels/SimulatedToolsPanel.py:362-368 | The deletion loop leaves exactly `Exported` of the store. The panel is not changed. |
| `Panel.SimulatedToolsPanel.ClearToolPos` | Navigator/GUI/ViewPanels/SimulatedToolsPanel.py:376-385 | An unknown tool key raises KeyError and nothing changes. Otherwise the tool's tracker key gets a position with no transform. |
| `Panel.SimulatedToolsPanel.SelectAndClearToolPos` | Navigator/GUI/ViewPanels/SimulatedToolsPanel.py:387-409 | An unrecognised pick cancels and an unresolvable one raises, both changing nothing. Otherwise the picked or given tool's pose is cleared. |
| `Panel.SimulatedToolsPanel.SelectAndMoveTool` | Navigator/GUI/ViewPanels/SimulatedToolsPanel.py:419-473 | Cancel, pick errors and an already-moving actor change nothing. Otherwise the store ends as `ReplayDrag` says. A completed drag restores the moving set. A failing back-out either raises with the actor still marked (if the callback's exception propagates) or records nothing and completes normally (if it is swallowed). |

## Left out

- Qt widgets, docks and button wiring; file dialogs, file reading and writing, and the JSON encoding of snapshots (`fromDict`, `asDict`, `jsonPrettyDumps`). Import and export are modelled on the decoded map of positions.
- The network side of `SimulatedToolPositionsClient`. Recording a position (sync or async) updates the local store at once.
  - The `sigLatestPositionsChanged` signal is not modelled: a record does not trigger a refresh by itself, and refreshes are invoked explicitly.
  - `getLatestTransf` raises KeyError only for an unknown key, which is how the restore uses it. That client code is not part of this model.
- asyncio tasks, `finishedAsyncInit`, and the transitions of the `hasInitialized` / `isInitializing` flags. Those transitions are owned by the base panel class, which is not part of this model; the flags are plain fields.
- pyvista rendering. An actor is its visibility and user transform. Mesh, colour, opacity, `render()` calls and the camera-reset no-op (`:290-291`) are left out.
- `pickActor` and `interactivelyMoveActor`.
  - A pick is the picked actor's name.
  - A drag is the sequence of transforms passed to `onNewTransf`.
  - Cancelling a drag is not modelled; the removal at `:473` is not in a `finally`, so nothing is claimed about cleanup.
  - Whether an exception raised inside `onNewTransf` leaves `interactivelyMoveActor` is decided by code that is not part of this model. `SelectAndMoveTool` takes it as the parameter `callbackErrorsPropagate` and states both cases.
- Numeric 4×4 matrices. `invertTransform` of a singular or missing matrix is modelled only as the missing-offset error of the back-out.
- Operations that record several positions (the startup restore, clear all, zero all, import, and the updates of one drag) call `time.time()` once per record in the source. The model (`Restored`, `Cleared`, `Zeroed`, `Imported`, `ReplayDrag` and the methods proved against them) uses one `now` for all of them.
