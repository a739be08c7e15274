/** What one refresh of the simulated-tools panel (`_onLatestPositionsChanged`)
    does to the pose store, the persisted configuration poses and the rendered
    actors, stated as functions of the state before the refresh, and the
    properties those functions have. */
module Bindings {
  import opened Transforms
  import opened Poses
  import opened Tools

  /** A rendered mesh: whether it is visible, and the user transform last set
      on it (None until the first `setActorUserTransform`). */
  datatype Actor = Actor(visible: bool, transform: Option<Transf>)

  /** What the rendering part of a refresh reads: the pose store after the
      startup restore, the actors being dragged, and the subject inputs. */
  datatype Env = Env(latest: map<string, Position>, moving: set<string>, subject: Subject)

  /** The panel's bookkeeping: pose store, `config.poses`, `_actors`,
      `_currentlyMovingActors`, `_hasRestoredPositions` and the two
      initialisation flags. */
  datatype PanelState = PanelState(
    latest: map<string, Position>,
    poses: map<string, SavedPose>,
    actors: map<string, Actor>,
    moving: set<string>,
    restored: bool,
    initialized: bool,
    initializing: bool)

  // --------------------------------------------------------- one actor key

  function Hidden(cur: Option<Actor>): Option<Actor> {
    match cur
    case None => None
    case Some(actor) => Some(actor.(visible := false))
  }

  /** The actor stored under the key of aspect `a` of tool `t` after the
      refresh has visited it, given the actor stored there before (None when
      there is none). */
  function ActorAfter(t: Tool, a: Aspect, env: Env, cur: Option<Actor>): Option<Actor> {
    var pose := LatestTransf(env.latest, t.trackerKey);
    if !t.isActive || pose.None? then Hidden(cur)
    else if ActorKey(t.key, a) in env.moving then cur
    else if DoShow(t, a, env.subject) then
      Some(Actor(true, Some(DisplayTransform(t, a, env.subject, pose.value))))
    else Hidden(cur)
  }

  /** Visiting an actor key twice with the same inputs is visiting it once. */
  lemma ActorAfterIdempotent(t: Tool, a: Aspect, env: Env, cur: Option<Actor>)
    ensures ActorAfter(t, a, env, ActorAfter(t, a, env, cur)) == ActorAfter(t, a, env, cur)
  {
  }

  // ------------------------------------------------------ the whole pass

  function Put(m: map<string, Actor>, k: string, v: Option<Actor>): map<string, Actor> {
    match v
    case None => m - {k}
    case Some(actor) => m[k := actor]
  }

  /** The actors after visiting the keys of `aspects` of tool `t`, in order. */
  function StepAspects(t: Tool, aspects: seq<Aspect>, env: Env, m: map<string, Actor>): map<string, Actor>
    decreases |aspects|
  {
    if aspects == [] then m
    else
      var prev := StepAspects(t, aspects[..|aspects| - 1], env, m);
      var a := aspects[|aspects| - 1];
      Put(prev, ActorKey(t.key, a), ActorAfter(t, a, env, Get(prev, ActorKey(t.key, a))))
  }

  /** The actors after the rendering loop has visited every tool, in order. */
  function PassActors(tools: seq<Tool>, env: Env, m: map<string, Actor>): map<string, Actor>
    decreases |tools|
  {
    if tools == [] then m
    else
      var t := tools[|tools| - 1];
      StepAspects(t, AspectsOf(t), env, PassActors(tools[..|tools| - 1], env, m))
  }

  /** `k` is the key of one of the actors the pass visits. */
  ghost predicate Visits(tools: seq<Tool>, k: string) {
    exists t, a :: t in tools && a in AspectsOf(t) && k == ActorKey(t.key, a)
  }

  lemma {:induction false} StepAspectsOther(t: Tool, aspects: seq<Aspect>, env: Env, m: map<string, Actor>, k: string)
    requires forall a :: a in aspects ==> ActorKey(t.key, a) != k
    ensures Get(StepAspects(t, aspects, env, m), k) == Get(m, k)
    decreases |aspects|
  {
    if aspects != [] {
      var n := |aspects|;
      assert aspects[n - 1] in aspects;
      assert forall a :: a in aspects[..n - 1] ==> a in aspects;
      StepAspectsOther(t, aspects[..n - 1], env, m, k);
    }
  }

  lemma {:induction false} StepAspectsAt(t: Tool, aspects: seq<Aspect>, env: Env, m: map<string, Actor>, a: Aspect)
    requires a in aspects
    ensures Get(StepAspects(t, aspects, env, m), ActorKey(t.key, a))
         == ActorAfter(t, a, env, Get(m, ActorKey(t.key, a)))
    decreases |aspects|
  {
    var n := |aspects|;
    var k := ActorKey(t.key, a);
    var prefix := aspects[..n - 1];
    var last := aspects[n - 1];
    assert aspects == prefix + [last];
    if last == a {
      if a in prefix {
        StepAspectsAt(t, prefix, env, m, a);
        ActorAfterIdempotent(t, a, env, Get(m, k));
      } else {
        forall b | b in prefix ensures ActorKey(t.key, b) != k {
          ActorKeyInjective(t.key, b, t.key, a);
        }
        StepAspectsOther(t, prefix, env, m, k);
      }
    } else {
      ActorKeyInjective(t.key, last, t.key, a);
      StepAspectsAt(t, prefix, env, m, a);
    }
  }

  /** The pass leaves every actor it does not visit as it was: in particular
      the actors of tools that are no longer in the registry. */
  lemma {:induction false} PassOther(tools: seq<Tool>, env: Env, m: map<string, Actor>, k: string)
    requires !Visits(tools, k)
    ensures Get(PassActors(tools, env, m), k) == Get(m, k)
    decreases |tools|
  {
    if tools != [] {
      var n := |tools|;
      var t := tools[n - 1];
      NotVisitedSnoc(tools, t, k);
      PassOther(tools[..n - 1], env, m, k);
      StepAspectsOther(t, AspectsOf(t), env, PassActors(tools[..n - 1], env, m), k);
    }
  }

  /** A key the pass does not visit is visited neither by the earlier tools
      nor by the last one. */
  lemma NotVisitedSnoc(tools: seq<Tool>, last: Tool, k: string)
    requires tools != [] && tools[|tools| - 1] == last && !Visits(tools, k)
    ensures !Visits(tools[..|tools| - 1], k)
    ensures forall a :: a in AspectsOf(last) ==> ActorKey(last.key, a) != k
  {
    var n := |tools|;
    forall u, b | u in tools[..n - 1] && b in AspectsOf(u) ensures k != ActorKey(u.key, b) {
      assert u in tools;
    }
    assert last in tools;
  }

  /** Each visited actor key ends up as `ActorAfter` of what it held before
      the pass: the tools' keys are distinct, so no other tool touches it. */
  lemma {:induction false} PassAt(tools: seq<Tool>, env: Env, m: map<string, Actor>, t: Tool, a: Aspect)
    requires DistinctKeys(tools)
    requires t in tools && a in AspectsOf(t)
    ensures Get(PassActors(tools, env, m), ActorKey(t.key, a))
         == ActorAfter(t, a, env, Get(m, ActorKey(t.key, a)))
    decreases |tools|
  {
    var n := |tools|;
    var k := ActorKey(t.key, a);
    var prefix := tools[..n - 1];
    var last := tools[n - 1];
    if last == t {
      LastNotVisitedBefore(tools, a);
      PassOther(prefix, env, m, k);
      StepAspectsAt(last, AspectsOf(last), env, PassActors(prefix, env, m), a);
    } else {
      EarlierTool(tools, t);
      OtherToolKeys(last, t, a);
      PassAt(prefix, env, m, t, a);
      StepAspectsOther(last, AspectsOf(last), env, PassActors(prefix, env, m), k);
    }
  }

  /** A tool other than the last one is in the prefix, under a different
      key, and the prefix still has distinct keys. */
  lemma EarlierTool(tools: seq<Tool>, t: Tool)
    requires DistinctKeys(tools) && t in tools && tools[|tools| - 1] != t
    ensures t in tools[..|tools| - 1] && t.key != tools[|tools| - 1].key
    ensures DistinctKeys(tools[..|tools| - 1])
  {
    var i :| 0 <= i < |tools| && tools[i] == t;
    assert tools[..|tools| - 1][i] == t;
  }

  /** The actor keys of a tool miss every actor key of a differently keyed
      tool. */
  lemma OtherToolKeys(u: Tool, t: Tool, a: Aspect)
    requires u.key != t.key
    ensures forall b :: b in AspectsOf(u) ==> ActorKey(u.key, b) != ActorKey(t.key, a)
  {
    forall b | b in AspectsOf(u) ensures ActorKey(u.key, b) != ActorKey(t.key, a) {
      ActorKeyInjective(u.key, b, t.key, a);
    }
  }

  /** No tool before the last one has an actor key of the last one. */
  lemma LastNotVisitedBefore(tools: seq<Tool>, a: Aspect)
    requires DistinctKeys(tools) && tools != []
    ensures !Visits(tools[..|tools| - 1], ActorKey(tools[|tools| - 1].key, a))
  {
    var n := |tools|;
    var k := ActorKey(tools[n - 1].key, a);
    forall u, b | u in tools[..n - 1] && b in AspectsOf(u) ensures k != ActorKey(u.key, b) {
      var j :| 0 <= j < n - 1 && tools[..n - 1][j] == u;
      assert tools[j].key != tools[n - 1].key;
      ActorKeyInjective(u.key, b, tools[n - 1].key, a);
    }
  }

  /** A tool that is inactive or has no latest transform: each of its actors
      that exists is hidden -- even one being dragged -- and keeps its
      transform; none is created. */
  lemma PassHidesUnposed(tools: seq<Tool>, env: Env, m: map<string, Actor>, t: Tool, a: Aspect)
    requires DistinctKeys(tools)
    requires t in tools && a in AspectsOf(t)
    requires !t.isActive || LatestTransf(env.latest, t.trackerKey).None?
    ensures var k, r := ActorKey(t.key, a), PassActors(tools, env, m);
            && (k in r <==> k in m)
            && (k in m ==> r[k] == m[k].(visible := false))
  {
    PassAt(tools, env, m, t, a);
  }

  /** An actor being dragged, of an active tool with a pose, is neither
      created, nor moved, nor shown or hidden by the pass. */
  lemma PassSkipsMoving(tools: seq<Tool>, env: Env, m: map<string, Actor>, t: Tool, a: Aspect)
    requires DistinctKeys(tools)
    requires t in tools && a in AspectsOf(t)
    requires t.isActive && LatestTransf(env.latest, t.trackerKey).Some?
    requires ActorKey(t.key, a) in env.moving
    ensures Get(PassActors(tools, env, m), ActorKey(t.key, a)) == Get(m, ActorKey(t.key, a))
  {
    PassAt(tools, env, m, t, a);
  }

  /** Visibility reconciliation for an actor of an active tool with a pose
      that is not being dragged: afterwards it exists iff it existed or
      `doShow` holds, it is visible iff `doShow`, a shown actor carries the
      display transform for the latest pose, and a hidden one keeps its old
      transform. */
  lemma PassReconciles(tools: seq<Tool>, env: Env, m: map<string, Actor>, t: Tool, a: Aspect)
    requires DistinctKeys(tools)
    requires t in tools && a in AspectsOf(t)
    requires t.isActive && LatestTransf(env.latest, t.trackerKey).Some?
    requires ActorKey(t.key, a) !in env.moving
    ensures var k, r := ActorKey(t.key, a), PassActors(tools, env, m);
            && (k in r <==> k in m || DoShow(t, a, env.subject))
            && (k in r ==> r[k].visible == DoShow(t, a, env.subject))
            && (DoShow(t, a, env.subject) ==>
                  r[k].transform == Some(DisplayTransform(t, a, env.subject, LatestTransf(env.latest, t.trackerKey).value)))
            && (!DoShow(t, a, env.subject) && k in m ==> r[k].transform == m[k].transform)
  {
    PassAt(tools, env, m, t, a);
  }

  /** Actors are created only for the key of an active tool with a pose, not
      being dragged, whose mesh can be shown; no actor is ever removed. */
  lemma PassCreatesOnlyShown(tools: seq<Tool>, env: Env, m: map<string, Actor>, k: string)
    requires DistinctKeys(tools)
    ensures k in m ==> k in PassActors(tools, env, m)
    ensures k !in m && k in PassActors(tools, env, m) ==>
              exists t, a :: && t in tools && a in AspectsOf(t) && k == ActorKey(t.key, a)
                             && t.isActive && LatestTransf(env.latest, t.trackerKey).Some?
                             && k !in env.moving && DoShow(t, a, env.subject)
  {
    if Visits(tools, k) {
      var t, a :| t in tools && a in AspectsOf(t) && k == ActorKey(t.key, a);
      PassAt(tools, env, m, t, a);
    } else {
      PassOther(tools, env, m, k);
    }
  }

  /** A second pass with unchanged inputs creates no actor, flips no
      visibility and sets no different transform. */
  lemma PassIdempotent(tools: seq<Tool>, env: Env, m: map<string, Actor>)
    requires DistinctKeys(tools)
    ensures PassActors(tools, env, PassActors(tools, env, m)) == PassActors(tools, env, m)
  {
    var once := PassActors(tools, env, m);
    forall k ensures Get(PassActors(tools, env, once), k) == Get(once, k) {
      if Visits(tools, k) {
        var t, a :| t in tools && a in AspectsOf(t) && k == ActorKey(t.key, a);
        PassAt(tools, env, once, t, a);
        PassAt(tools, env, m, t, a);
        ActorAfterIdempotent(t, a, env, Get(m, k));
      } else {
        PassOther(tools, env, once, k);
      }
    }
    MapsEqualByGet(PassActors(tools, env, once), once);
  }

  // ------------------------------------------------------ startup restore

  /** The pose store after the startup restore: every configuration pose with
      a transform is recorded at time `now`, but only under a tracker key the
      store has never seen; a key present with no transform is not restored. */
  function Restored(latest: map<string, Position>, poses: map<string, SavedPose>, now: int): (r: map<string, Position>)
    ensures forall k :: k in r <==> k in latest || (k in poses && poses[k].transf.Some?)
    ensures forall k :: k in latest ==> r[k] == latest[k]
    ensures forall k :: k in r && k !in latest ==> r[k] == Position(now, poses[k].transf, poses[k].relativeTo)
  {
    latest + map k | k in poses && poses[k].transf.Some? && k !in latest
                 :: Position(now, poses[k].transf, poses[k].relativeTo)
  }

  // ------------------------------------------------------- config mirror

  ghost predicate IsTrackerKeyOf(tools: seq<Tool>, k: string) {
    exists t :: t in tools && t.trackerKey == k
  }

  /** One step of the mirror loop: write the live transform of `trackerKey`
      into the configuration, creating the entry (with no `relativeTo`) only
      when there is a live transform. */
  function MirrorOne(trackerKey: string, latest: map<string, Position>, poses: map<string, SavedPose>): map<string, SavedPose> {
    var transf := LatestTransf(latest, trackerKey);
    if transf.None? && trackerKey !in poses then poses
    else
      var relativeTo := if trackerKey in poses then poses[trackerKey].relativeTo else None;
      poses[trackerKey := SavedPose(transf, relativeTo)]
  }

  function Mirrored(tools: seq<Tool>, latest: map<string, Position>, poses: map<string, SavedPose>): map<string, SavedPose>
    decreases |tools|
  {
    if tools == [] then poses
    else MirrorOne(tools[|tools| - 1].trackerKey, latest, Mirrored(tools[..|tools| - 1], latest, poses))
  }

  /** The mirror, key by key: a tool's tracker key that has a live transform
      or already has a configuration entry ends up with the live transform
      (possibly None) and its old `relativeTo`; one with neither gets no
      entry; every other key is untouched. */
  lemma {:induction false} MirrorAt(tools: seq<Tool>, latest: map<string, Position>, poses: map<string, SavedPose>, k: string)
    ensures Get(Mirrored(tools, latest, poses), k)
         == if IsTrackerKeyOf(tools, k) && (LatestTransf(latest, k).Some? || k in poses)
            then Some(SavedPose(LatestTransf(latest, k), if k in poses then poses[k].relativeTo else None))
            else Get(poses, k)
    decreases |tools|
  {
    if tools != [] {
      var n := |tools|;
      var prefix := tools[..n - 1];
      var last := tools[n - 1];
      MirrorAt(prefix, latest, poses, k);
      assert tools == prefix + [last];
      assert IsTrackerKeyOf(tools, k) <==> IsTrackerKeyOf(prefix, k) || last.trackerKey == k by {
        if IsTrackerKeyOf(tools, k) && last.trackerKey != k {
          var u :| u in tools && u.trackerKey == k;
          assert u in prefix;
        }
        if IsTrackerKeyOf(prefix, k) {
          var u :| u in prefix && u.trackerKey == k;
          assert u in tools;
        }
        assert last in tools;
      }
    }
  }

  /** Mirroring the same live poses twice is mirroring them once. */
  lemma MirrorIdempotent(tools: seq<Tool>, latest: map<string, Position>, poses: map<string, SavedPose>)
    ensures Mirrored(tools, latest, Mirrored(tools, latest, poses)) == Mirrored(tools, latest, poses)
  {
    var once := Mirrored(tools, latest, poses);
    forall k ensures Get(Mirrored(tools, latest, once), k) == Get(once, k) {
      MirrorAt(tools, latest, poses, k);
      MirrorAt(tools, latest, once, k);
    }
    MapsEqualByGet(Mirrored(tools, latest, once), once);
  }

  // -------------------------------------------------------- whole refresh

  /** `_onLatestPositionsChanged`: the restore (first time only), the
      unconditional mirror, the early exit before initialisation, and the
      rendering pass. */
  function Refreshed(s: PanelState, tools: seq<Tool>, subject: Subject, now: int): (r: PanelState)
    ensures r.restored
    ensures s.restored ==> r.latest == s.latest
    ensures !s.initialized && !s.initializing ==> r.actors == s.actors
    ensures r.moving == s.moving && r.initialized == s.initialized && r.initializing == s.initializing
  {
    var latest := if s.restored then s.latest else Restored(s.latest, s.poses, now);
    var poses := Mirrored(tools, latest, s.poses);
    var actors := if !s.initialized && !s.initializing then s.actors
                  else PassActors(tools, Env(latest, s.moving, subject), s.actors);
    PanelState(latest, poses, actors, s.moving, true, s.initialized, s.initializing)
  }

  /** After a refresh, the configuration holds the live transform of every
      tool whose tracker has one or already had an entry, and no entry for a
      tool with neither. */
  lemma RefreshMirrorsLive(s: PanelState, tools: seq<Tool>, subject: Subject, now: int, t: Tool)
    requires t in tools
    ensures var r := Refreshed(s, tools, subject, now);
            if LatestTransf(r.latest, t.trackerKey).Some? || t.trackerKey in s.poses
            then t.trackerKey in r.poses && r.poses[t.trackerKey].transf == LatestTransf(r.latest, t.trackerKey)
            else t.trackerKey !in r.poses
  {
    var r := Refreshed(s, tools, subject, now);
    assert IsTrackerKeyOf(tools, t.trackerKey);
    MirrorAt(tools, r.latest, s.poses, t.trackerKey);
  }

  /** A second refresh with the same tools and subject inputs changes nothing:
      the restore does not run again (whatever the time), the mirror writes
      the same values, and no actor is created, moved, shown or hidden. */
  lemma RefreshIdempotent(s: PanelState, tools: seq<Tool>, subject: Subject, now: int, later: int)
    requires DistinctKeys(tools)
    ensures Refreshed(Refreshed(s, tools, subject, now), tools, subject, later) == Refreshed(s, tools, subject, now)
  {
    var once := Refreshed(s, tools, subject, now);
    MirrorIdempotent(tools, once.latest, s.poses);
    if once.initialized || once.initializing {
      PassIdempotent(tools, Env(once.latest, s.moving, subject), s.actors);
    }
  }

  // ------------------------------------------------- tool set changed

  /** `_onToolsChanged`: drop the tracker and tool actors of every tool now in
      the registry (so that the next refresh re-creates them). */
  function WithoutToolActors(tools: seq<Tool>, m: map<string, Actor>): map<string, Actor>
    decreases |tools|
  {
    if tools == [] then m
    else
      var t := tools[|tools| - 1];
      WithoutToolActors(tools[..|tools| - 1], m) - {ActorKey(t.key, TrackerAspect), ActorKey(t.key, ToolAspect)}
  }

  ghost predicate IsMeshKeyOf(tools: seq<Tool>, k: string) {
    exists t :: t in tools && (k == ActorKey(t.key, TrackerAspect) || k == ActorKey(t.key, ToolAspect))
  }

  /** Exactly the tracker and tool actors of the current tools are removed;
      subject actors and the actors of tools no longer in the registry stay. */
  lemma {:induction false} WithoutToolActorsAt(tools: seq<Tool>, m: map<string, Actor>, k: string)
    ensures Get(WithoutToolActors(tools, m), k) == if IsMeshKeyOf(tools, k) then None else Get(m, k)
    decreases |tools|
  {
    if tools != [] {
      var n := |tools|;
      var prefix := tools[..n - 1];
      var last := tools[n - 1];
      WithoutToolActorsAt(prefix, m, k);
      assert tools == prefix + [last];
      MeshKeyOfSnoc(prefix, last, k);
    }
  }

  lemma MeshKeyOfSnoc(prefix: seq<Tool>, last: Tool, k: string)
    ensures IsMeshKeyOf(prefix + [last], k)
        <==> IsMeshKeyOf(prefix, k) || k == ActorKey(last.key, TrackerAspect) || k == ActorKey(last.key, ToolAspect)
  {
    var tools := prefix + [last];
    assert last in tools;
    if IsMeshKeyOf(tools, k) && k != ActorKey(last.key, TrackerAspect) && k != ActorKey(last.key, ToolAspect) {
      var u :| u in tools && (k == ActorKey(u.key, TrackerAspect) || k == ActorKey(u.key, ToolAspect));
      assert u in prefix;
    }
    if IsMeshKeyOf(prefix, k) {
      var u :| u in prefix && (k == ActorKey(u.key, TrackerAspect) || k == ActorKey(u.key, ToolAspect));
      assert u in tools;
    }
  }
}
