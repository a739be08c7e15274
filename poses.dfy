/** Timestamped tool positions, the persisted poses of the session
    configuration, and the small wrappers the rest of the model uses. */
module Poses {
  import opened Transforms

  datatype Option<T> = None | Some(value: T)

  /** What the Python code raises, or the lookup that fails. */
  datatype Error =
    | NotImplemented(key: string)     // a picked actor key with an unsupported suffix
    | KeyNotFound(key: string)        // `session.tools[key]` on a key that is not a tool
    | AlreadyMoving(key: string)      // the `assert` that the picked actor is not being moved
    | MissingTransform(key: string)   // a back-out through an offset transform that is None

  datatype Result<T> = Ok(value: T) | Err(error: Error)

  /** A TimestampedToolPosition: `transf` None means the tool has no known pose;
      `relativeTo` names the tool whose frame the pose is expressed in. */
  datatype Position = Position(time: int, transf: Option<Transf>, relativeTo: Option<string>)

  /** A SimulatedToolPose of the session configuration (its key is the map key). */
  datatype SavedPose = SavedPose(transf: Option<Transf>, relativeTo: Option<string>)

  function Get<K, V>(m: map<K, V>, k: K): Option<V> {
    if k in m then Some(m[k]) else None
  }

  /** `getLatestTransf(key, None)`: the latest transform, None when the key
      was never seen or its latest position has no transform. */
  function LatestTransf(latest: map<string, Position>, key: string): Option<Transf> {
    if key in latest then latest[key].transf else None
  }

  /** Two maps that agree on every lookup are equal. */
  lemma MapsEqualByGet<K, V>(m1: map<K, V>, m2: map<K, V>)
    requires forall k :: Get(m1, k) == Get(m2, k)
    ensures m1 == m2
  {
    forall k | k in m1 ensures k in m2 && m1[k] == m2[k] {
      assert Get(m1, k) == Get(m2, k);
    }
    forall k | k in m2 ensures k in m1 {
      assert Get(m1, k) == Get(m2, k);
    }
    assert m1.Keys == m2.Keys;
  }
}
