/** Fresh identifiers. */
module Numbers {

  /** Whatever numbers are taken, there is another one. */
  lemma {:induction false} Unused(taken: set<nat>) returns (n: nat)
    ensures n !in taken && forall k :: k in taken ==> k < n
    decreases |taken|
  {
    if taken == {} {
      n := 0;
    } else {
      var k :| k in taken;
      var m := Unused(taken - {k});
      n := if k < m then m else k + 1;
      forall other | other in taken ensures other < n {
        if other != k { assert other in taken - {k}; }
      }
    }
  }
}
