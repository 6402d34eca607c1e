/** Counting finite sets. */
module Sets {
  lemma {:induction false} Fewer(a: set<nat>, b: set<nat>)
    requires a <= b
    ensures |a| <= |b|
    decreases |a|
  {
    if |a| > 0 {
      var x :| x in a;
      Fewer(a - {x}, b - {x});
    }
  }
}
