/** Transforms as the panel builds them: 4x4 homogeneous matrices kept as the
    expression that produced them. The constructors are free, so composition
    and inversion are uninterpreted; a meaning is given only through an
    `Algebra`, and only under explicitly stated group laws. */
module Transforms {

  datatype Transf =
    | Identity                                    // np.eye(4)
    | Given(id: nat)                              // a matrix supplied from outside (calibration, a drag)
    | MatMul(lhs: Transf, rhs: Transf)            // lhs @ rhs
    | Invert(of: Transf)                          // invertTransform(of)
    | Concatenate(first: Transf, second: Transf)  // concatenateTransforms([first, second])

  /** An interpretation of transforms in a carrier `M`: the identity, the
      matrix product, the inverse and the value of each given matrix. */
  datatype Algebra<!M> = Algebra(eye: M, mul: (M, M) -> M, inv: M -> M, given: nat -> M)

  /** The carrier is a group under `mul` (rigid transforms are). */
  ghost predicate GroupLaws<M(!new)>(g: Algebra<M>) {
    && (forall x, y, z {:trigger g.mul(g.mul(x, y), z)} :: g.mul(g.mul(x, y), z) == g.mul(x, g.mul(y, z)))
    && (forall x :: g.mul(x, g.eye) == x)
    && (forall x :: g.mul(g.eye, x) == x)
    && (forall x :: g.mul(x, g.inv(x)) == g.eye)
    && (forall x :: g.mul(g.inv(x), x) == g.eye)
  }

  /** The value of a transform expression. `concatenateTransforms` is not part
      of this model; its meaning here is the ASSUMPTION that it chains its
      arguments so that the first is applied first: [a, b] denotes b @ a. */
  function Eval<M>(g: Algebra<M>, t: Transf): M {
    match t
    case Identity => g.eye
    case Given(n) => g.given(n)
    case MatMul(l, r) => g.mul(Eval(g, l), Eval(g, r))
    case Invert(x) => g.inv(Eval(g, x))
    case Concatenate(a, b) => g.mul(Eval(g, b), Eval(g, a))
  }

  /** Multiplying by the inverse of `y` and then by `y` gives back `x`. */
  lemma CancelInverse<M(!new)>(g: Algebra<M>, x: M, y: M)
    requires GroupLaws(g)
    ensures g.mul(g.mul(x, g.inv(y)), y) == x
  {
    calc {
      g.mul(g.mul(x, g.inv(y)), y);
    ==  // associativity
      g.mul(x, g.mul(g.inv(y), y));
    ==  // left inverse
      g.mul(x, g.eye);
    ==  // right identity
      x;
    }
  }

  /** A pose obtained by undoing `offset` from `dragged`, chained after
      `offset` again, evaluates to `dragged`. */
  lemma RedisplayBackedOut<M(!new)>(g: Algebra<M>, offset: Transf, pose: Transf, dragged: Transf)
    requires GroupLaws(g)
    requires Eval(g, pose) == g.mul(Eval(g, dragged), g.inv(Eval(g, offset)))
    ensures Eval(g, Concatenate(offset, pose)) == Eval(g, dragged)
  {
    CancelInverse(g, Eval(g, dragged), Eval(g, offset));
  }
}
