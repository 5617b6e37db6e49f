/** Small facts of integer arithmetic that the counting proofs of the templates and the runs share. */
module Arith {

  /** One more copy of `v`: the step of every proof that a total is a count times a size. */
  lemma MulSucc(c: int, v: int)
    ensures (c + 1) * v == c * v + v
  {
  }
}
