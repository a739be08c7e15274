/** The read-only tool registry the panel iterates over, the actor keys it
    derives from tool keys, and the transform arithmetic of one actor:
    where it is displayed, and how a dragged actor is backed out into a
    tracker pose. */
module Tools {
  import opened Transforms
  import opened Poses

  /** One entry of `session.tools`. A tool's dictionary key and its `key`
      attribute are the same string. `doRender*` are False only when rendering
      is switched off (None counts as on, since the code tests `is False`);
      `has*Stl` say whether the STL file path is set. */
  datatype Tool = Tool(
    key: string,
    trackerKey: string,
    isActive: bool,
    isSubjectTracker: bool,
    doRenderTracker: bool,
    doRenderTool: bool,
    hasTrackerStl: bool,
    hasToolStl: bool,
    trackerStlToTrackerTransf: Option<Transf>,
    toolToTrackerTransf: Option<Transf>,
    toolStlToToolTransf: Transf)

  /** Session inputs for the subject surface: the registration transform and
      whether the head model has a skin surface. */
  datatype Subject = Subject(trackerToMRITransf: Option<Transf>, hasSkinSurf: bool)

  /** Which actor of a tool: its tracker mesh, its tool mesh, or (for the
      subject tracker only) the subject's skin surface. */
  datatype Aspect = TrackerAspect | ToolAspect | SubjectAspect

  function Suffix(a: Aspect): string {
    match a
    case TrackerAspect => "_tracker"
    case ToolAspect => "_tool"
    case SubjectAspect => "_subject"
  }

  function ActorKey(toolKey: string, a: Aspect): string {
    toolKey + Suffix(a)
  }

  /** The actor keys the refresh visits for a tool, in order. */
  function AspectsOf(t: Tool): seq<Aspect> {
    [TrackerAspect, ToolAspect] + if t.isSubjectTracker then [SubjectAspect] else []
  }

  /** `session.tools` is a dictionary: no two entries share a key. */
  ghost predicate DistinctKeys(tools: seq<Tool>) {
    forall i, j :: 0 <= i < j < |tools| ==> tools[i].key != tools[j].key
  }

  /** Different (tool, aspect) pairs never share an actor key: the three
      suffixes end in different letters. */
  lemma ActorKeyInjective(k1: string, a1: Aspect, k2: string, a2: Aspect)
    ensures ActorKey(k1, a1) == ActorKey(k2, a2) <==> k1 == k2 && a1 == a2
  {
    if ActorKey(k1, a1) == ActorKey(k2, a2) {
      var s := ActorKey(k1, a1);
      assert s[|s| - 1] == Suffix(a1)[|Suffix(a1)| - 1];
      assert s[|s| - 1] == Suffix(a2)[|Suffix(a2)| - 1];
      assert a1 == a2;
      assert k1 == s[..|k1|];
      assert k2 == s[..|k2|];
    }
  }

  // ---------------------------------------------------------------- picking

  predicate EndsWith(s: string, suffix: string) {
    |suffix| <= |s| && s[|s| - |suffix|..] == suffix
  }

  /** The tool key of a picked actor: strip `_tracker` or `_tool`; any other
      actor key raises NotImplementedError. */
  function ResolveToolKey(pickedKey: string): Result<string> {
    if EndsWith(pickedKey, "_tracker") then Ok(pickedKey[..|pickedKey| - |"_tracker"|])
    else if EndsWith(pickedKey, "_tool") then Ok(pickedKey[..|pickedKey| - |"_tool"|])
    else Err(NotImplemented(pickedKey))
  }

  /** A string that ends with a suffix ends with the suffix's last letter. */
  lemma EndsWithLast(s: string, suffix: string)
    requires |suffix| > 0
    ensures EndsWith(s, suffix) ==> s[|s| - 1] == suffix[|suffix| - 1]
  {
    if EndsWith(s, suffix) {
      assert s[|s| - |suffix|..][|suffix| - 1] == s[|s| - 1];
    }
  }

  /** Which of the two suffixes an actor key ends with. */
  lemma ActorKeyEndings(toolKey: string, a: Aspect)
    ensures EndsWith(ActorKey(toolKey, a), "_tracker") <==> a == TrackerAspect
    ensures EndsWith(ActorKey(toolKey, a), "_tool") <==> a == ToolAspect
  {
    var s := ActorKey(toolKey, a);
    EndsWithLast(s, "_tracker");
    EndsWithLast(s, "_tool");
    assert s[|s| - 1] == Suffix(a)[|Suffix(a)| - 1];
    assert s[|s| - |Suffix(a)|..] == Suffix(a);
  }

  /** Resolving an actor key gives back the tool it was derived from, except
      for a subject actor, which cannot be picked for moving or clearing. */
  lemma ResolveActorKey(toolKey: string, a: Aspect)
    ensures ResolveToolKey(ActorKey(toolKey, a))
         == if a == SubjectAspect then Err(NotImplemented(ActorKey(toolKey, a))) else Ok(toolKey)
  {
    var s := ActorKey(toolKey, a);
    ActorKeyEndings(toolKey, a);
    assert s[..|s| - |Suffix(a)|] == toolKey;
  }

  /** Conversely, a key that resolves to a tool is that tool's tracker or
      tool actor key. */
  lemma ResolvedIsActorKey(pickedKey: string, toolKey: string)
    requires ResolveToolKey(pickedKey) == Ok(toolKey)
    ensures pickedKey == ActorKey(toolKey, TrackerAspect) || pickedKey == ActorKey(toolKey, ToolAspect)
  {
    var n := |pickedKey|;
    if EndsWith(pickedKey, "_tracker") {
      assert pickedKey == pickedKey[..n - 8] + pickedKey[n - 8..];
    } else {
      assert pickedKey == pickedKey[..n - 5] + pickedKey[n - 5..];
    }
  }

  /** `session.tools[key]`: the entry with that key, if any. */
  function FindTool(tools: seq<Tool>, key: string): (r: Option<Tool>)
    ensures r.Some? ==> r.value in tools && r.value.key == key
    ensures r.None? ==> forall t :: t in tools ==> t.key != key
  {
    if tools == [] then None
    else if tools[0].key == key then Some(tools[0])
    else FindTool(tools[1..], key)
  }

  // ------------------------------------------------------------- transforms

  /** The STL-to-tracker transform of a tracker or tool actor: the tool mesh
      goes through `toolToTrackerTransf @ toolStlToToolTransf`, and is absent
      when the tool has no tool-to-tracker transform. */
  function StlToTracker(t: Tool, a: Aspect): Option<Transf>
    requires a != SubjectAspect
  {
    if a == TrackerAspect then t.trackerStlToTrackerTransf
    else if t.toolToTrackerTransf.None? then None
    else Some(MatMul(t.toolToTrackerTransf.value, t.toolStlToToolTransf))
  }

  /** `doShow` of the refresh pass for an actor of an active tool with a pose. */
  predicate DoShow(t: Tool, a: Aspect, subject: Subject) {
    match a
    case TrackerAspect => t.doRenderTracker && t.hasTrackerStl && StlToTracker(t, a).Some?
    case ToolAspect => t.doRenderTool && t.hasToolStl && StlToTracker(t, a).Some?
    case SubjectAspect => subject.trackerToMRITransf.Some? && subject.hasSkinSurf
  }

  /** The user transform given to a shown actor when its tracker is at `pose`:
      the mesh offset chained with the pose, or for the subject surface the
      pose times the inverse of the tracker-to-MRI registration. */
  function DisplayTransform(t: Tool, a: Aspect, subject: Subject, pose: Transf): Transf
    requires DoShow(t, a, subject)
  {
    if a == SubjectAspect then MatMul(pose, Invert(subject.trackerToMRITransf.value))
    else Concatenate(StlToTracker(t, a).value, pose)
  }

  /** `onNewTransf`: the tracker-to-world pose that puts the picked mesh at the
      dragged transform `dragged`, by undoing the mesh's offset. */
  function BackOut(t: Tool, pickedKey: string, dragged: Transf): Result<Transf> {
    if EndsWith(pickedKey, "_tool") then
      if t.toolToTrackerTransf.None? then Err(MissingTransform(pickedKey))
      else Ok(Concatenate(Invert(Concatenate(t.toolStlToToolTransf, t.toolToTrackerTransf.value)), dragged))
    else if EndsWith(pickedKey, "_tracker") then
      if t.trackerStlToTrackerTransf.None? then Err(MissingTransform(pickedKey))
      else Ok(Concatenate(Invert(t.trackerStlToTrackerTransf.value), dragged))
    else Err(NotImplemented(pickedKey))
  }

  /** Whether a drag update can be backed out depends on the tool and the
      picked key, not on the dragged transform. */
  lemma BackOutOkUniform(t: Tool, pickedKey: string, w1: Transf, w2: Transf)
    ensures BackOut(t, pickedKey, w1).Ok? <==> BackOut(t, pickedKey, w2).Ok?
  {
  }

  /** Backing out a dragged tracker or tool mesh multiplies the dragged
      transform by the inverse of that mesh's offset. */
  lemma EvalBackOut<M>(g: Algebra<M>, t: Tool, a: Aspect, dragged: Transf)
    requires a != SubjectAspect
    requires BackOut(t, ActorKey(t.key, a), dragged).Ok?
    ensures StlToTracker(t, a).Some?
    ensures Eval(g, BackOut(t, ActorKey(t.key, a), dragged).value)
         == g.mul(Eval(g, dragged), g.inv(Eval(g, StlToTracker(t, a).value)))
  {
    ActorKeyEndings(t.key, a);
    var offset := StlToTracker(t, a).value;
    var backedOut := if a == TrackerAspect then offset
                     else Concatenate(t.toolStlToToolTransf, t.toolToTrackerTransf.value);
    assert BackOut(t, ActorKey(t.key, a), dragged).value == Concatenate(Invert(backedOut), dragged);
    assert Eval(g, backedOut) == Eval(g, offset);
  }

  /** The drag round trip: the pose recorded for a dragged tracker or tool
      mesh, displayed again through that mesh's offset, is the dragged
      transform -- in any group, given that `concatenateTransforms([a, b])`
      is `b @ a` (see `Eval`). */
  lemma DragRoundTrip<M(!new)>(g: Algebra<M>, t: Tool, a: Aspect, dragged: Transf)
    requires GroupLaws(g)
    requires a != SubjectAspect
    requires BackOut(t, ActorKey(t.key, a), dragged).Ok?
    ensures StlToTracker(t, a).Some?
    ensures Eval(g, Concatenate(StlToTracker(t, a).value, BackOut(t, ActorKey(t.key, a), dragged).value))
         == Eval(g, dragged)
  {
    EvalBackOut(g, t, a, dragged);
    RedisplayBackedOut(g, StlToTracker(t, a).value, BackOut(t, ActorKey(t.key, a), dragged).value, dragged);
  }
}
