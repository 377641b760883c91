/** Doing the same thing over and over. */
module Iteration {

  function Iterate<T>(step: T -> T, x: T, n: nat): T
    decreases n
  {
    if n == 0 then x else Iterate(step, step(x), n - 1)
  }

  lemma {:induction false} IterateAdd<T>(step: T -> T, x: T, a: nat, b: nat)
    ensures Iterate(step, x, a + b) == Iterate(step, Iterate(step, x, a), b)
    decreases a
  {
    if a > 0 { IterateAdd(step, step(x), a - 1, b); }
  }

  lemma {:induction false} IterateRests<T>(step: T -> T, x: T, n: nat)
    requires step(x) == x
    ensures Iterate(step, x, n) == x
    decreases n
  {
    if n > 0 { IterateRests(step, x, n - 1); }
  }
}
