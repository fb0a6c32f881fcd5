/** The pipeline interpreter shared by the reconcilers. */
module Steps {

  datatype Action = Continue | Stop | Requeue | Error

  /** Executes steps in order until one does not continue. */
  function Run<K, S>(exec: (K, S) -> (S, Action), steps: seq<K>, s: S): (S, Action) {
    if steps == [] then (s, Continue)
    else
      var (next, action) := exec(steps[0], s);
      if action.Continue? then Run(exec, steps[1..], next) else (next, action)
  }

  /** The state after the first i steps, if all of them run. */
  function After<K, S>(exec: (K, S) -> (S, Action), steps: seq<K>, s: S, i: nat): S
    requires i <= |steps|
  {
    if i == 0 then s else exec(steps[i - 1], After(exec, steps, s, i - 1)).0
  }

  ghost predicate AllContinue<K, S>(exec: (K, S) -> (S, Action), steps: seq<K>, s: S, i: nat)
    requires i <= |steps|
  {
    forall j :: 0 <= j < i ==> exec(steps[j], After(exec, steps, s, j)).1.Continue?
  }

  lemma {:induction false} AfterShift<K, S>(exec: (K, S) -> (S, Action), steps: seq<K>, s: S, i: nat)
    requires i < |steps|
    ensures After(exec, steps, s, i + 1) == After(exec, steps[1..], exec(steps[0], s).0, i)
  {
    if i > 0 {
      AfterShift(exec, steps, s, i - 1);
      assert steps[1..][i - 1] == steps[i];
    }
  }

  /** A run continues to the end exactly when every step does; otherwise it stops at the first
      step that does not, with that step's action and no later effect. */
  lemma {:induction false} RunStopsFirst<K, S>(exec: (K, S) -> (S, Action), steps: seq<K>, s: S) returns (i: nat)
    ensures i <= |steps| && AllContinue(exec, steps, s, i)
    ensures i == |steps| ==> Run(exec, steps, s) == (After(exec, steps, s, i), Continue)
    ensures i < |steps| ==> Run(exec, steps, s) == exec(steps[i], After(exec, steps, s, i))
    ensures i < |steps| ==> !exec(steps[i], After(exec, steps, s, i)).1.Continue?
  {
    if steps == [] {
      i := 0;
    } else {
      var (next, action) := exec(steps[0], s);
      if action.Continue? {
        var k := RunStopsFirst(exec, steps[1..], next);
        i := k + 1;
        forall j | 0 <= j < i
          ensures exec(steps[j], After(exec, steps, s, j)).1.Continue?
        {
          if j > 0 {
            AfterShift(exec, steps, s, j - 1);
            assert steps[1..][j - 1] == steps[j];
          }
        }
        AfterShift(exec, steps, s, k);
      } else {
        i := 0;
      }
    }
  }
}
