/** Runs in general: a property that only certain steps can break. */
module Always {

  /**
   If a good state stays good exactly over the steps that are not bad, then a run that starts well
   is good at every moment exactly when no step of it is bad.
   */
  lemma {:induction false} GoodUntilABadStep<S(!new)>(run: seq<S>, good: S -> bool, bad: (S, S) -> bool)
    requires |run| > 0 && good(run[0])
    requires forall i {:trigger bad(run[i], run[i + 1])} ::
               0 <= i < |run| - 1 && good(run[i]) ==> (good(run[i + 1]) <==> !bad(run[i], run[i + 1]))
    ensures (forall i :: 0 <= i < |run| ==> good(run[i])) <==>
            (forall i {:trigger bad(run[i], run[i + 1])} :: 0 <= i < |run| - 1 ==> !bad(run[i], run[i + 1]))
  {
    if forall i :: 0 <= i < |run| ==> good(run[i]) {
      forall i | 0 <= i < |run| - 1
        ensures !bad(run[i], run[i + 1])
      {
        assert good(run[i]) && good(run[i + 1]);
      }
    }
    if forall i {:trigger bad(run[i], run[i + 1])} :: 0 <= i < |run| - 1 ==> !bad(run[i], run[i + 1]) {
      forall i | 0 <= i < |run|
        ensures good(run[i])
      {
        GoodSoFar(run, good, bad, i);
      }
    }
  }

  lemma {:induction false} GoodSoFar<S(!new)>(run: seq<S>, good: S -> bool, bad: (S, S) -> bool, i: nat)
    requires i < |run| && good(run[0])
    requires forall j {:trigger bad(run[j], run[j + 1])} ::
               0 <= j < |run| - 1 && good(run[j]) ==> (good(run[j + 1]) <==> !bad(run[j], run[j + 1]))
    requires forall j {:trigger bad(run[j], run[j + 1])} :: 0 <= j < |run| - 1 ==> !bad(run[j], run[j + 1])
    ensures good(run[i])
  {
    if i > 0 {
      var j := i - 1;
      GoodSoFar(run, good, bad, j);
      assert !bad(run[j], run[j + 1]);
    }
  }
}
