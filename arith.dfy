/** Small facts about multiplication that the solver does not find on its own. */
module Arith {

  /** Multiplying by a natural number keeps the order. */
  lemma MulMono(x: int, y: int, c: nat)
    requires x <= y
    ensures c * x <= c * y
  {
  }

  /** A strictly larger factor adds at least one more `c`. */
  lemma MulStep(x: int, y: int, c: nat)
    requires x < y
    ensures c * x + c <= c * y
  {
    MulMono(x + 1, y, c);
    assert c * (x + 1) == c * x + c;
  }

  lemma MulPred(k: int, t: int)
    ensures k * t == (k - 1) * t + t
  {
  }

  lemma MulSucc(a: int, b: int)
    ensures a * (b + 1) == a * b + a
  {
  }
}
