/** The Ackermann–Péter reference function of data/test_ack.py, its closed
    forms for small first arguments, and an explicit-stack evaluator with a
    step guard that is proved to compute the same values. */
module Ackermann {

  /** The three-case recursive definition. Termination: every recursive call
      decreases the pair (n, m) lexicographically. */
  function Ack(n: nat, m: nat): nat
    decreases n, m
  {
    if n == 0 then m + 1
    else if m == 0 then Ack(n - 1, 1)
    else Ack(n - 1, Ack(n, m - 1))
  }

  function Pow2(k: nat): (r: nat)
    ensures r >= 1
  {
    if k == 0 then 1 else 2 * Pow2(k - 1)
  }

  // ----- The defining equations -----

  lemma AckZero(m: nat)
    ensures Ack(0, m) == m + 1
  {
  }

  lemma AckSucc(n: nat)
    requires n > 0
    ensures Ack(n, 0) == Ack(n - 1, 1)
  {
  }

  lemma AckNested(n: nat, m: nat)
    requires n > 0 && m > 0
    ensures Ack(n, m) == Ack(n - 1, Ack(n, m - 1))
  {
  }

  // ----- Closed forms -----

  lemma {:induction false} AckOne(m: nat)
    ensures Ack(1, m) == m + 2
  {
    if m > 0 {
      AckOne(m - 1);
    }
  }

  lemma {:induction false} AckTwo(m: nat)
    ensures Ack(2, m) == 2 * m + 3
  {
    if m == 0 {
      AckOne(1);
    } else {
      AckTwo(m - 1);
      AckOne(Ack(2, m - 1));
    }
  }

  lemma {:induction false} AckThree(m: nat)
    ensures Ack(3, m) == Pow2(m + 3) - 3
  {
    if m == 0 {
      AckTwo(1);
      assert Pow2(3) == 8;
    } else {
      AckThree(m - 1);
      AckTwo(Ack(3, m - 1));
    }
  }

  /** The value of the script's call ack(3, 8): Ack(3, 8) = 2045, what the
      script prints when its host allows about 2047 nested calls. */
  lemma AckThreeEight()
    ensures Ack(3, 8) == 2045
  {
    AckThree(8);
    Pow2Eleven(11);
  }

  lemma Pow2Eleven(k: nat)
    requires k == 11
    ensures Pow2(k) == 2048
  {
  }

  // ----- Growth and monotonicity -----

  lemma {:induction false} AckGreater(n: nat, m: nat)
    ensures Ack(n, m) > m
    decreases n, m
  {
    if n == 0 {
    } else if m == 0 {
      AckGreater(n - 1, 1);
    } else {
      AckGreater(n, m - 1);
      AckGreater(n - 1, Ack(n, m - 1));
    }
  }

  lemma {:induction false} AckStepM(n: nat, m: nat)
    ensures Ack(n, m) < Ack(n, m + 1)
  {
    if n > 0 {
      AckGreater(n - 1, Ack(n, m));
    }
  }

  /** For a fixed first argument, Ack is strictly increasing in the second. */
  lemma {:induction false} AckMonotoneM(n: nat, m1: nat, m2: nat)
    requires m1 < m2
    ensures Ack(n, m1) < Ack(n, m2)
    decreases m2 - m1
  {
    AckStepM(n, m1);
    if m1 + 1 < m2 {
      AckMonotoneM(n, m1 + 1, m2);
    }
  }

  lemma {:induction false} AckDiagonal(n: nat, m: nat)
    ensures Ack(n + 1, m) >= Ack(n, m + 1)
  {
    if m > 0 {
      AckDiagonal(n, m - 1);
      AckGreater(n, m);
      if Ack(n + 1, m - 1) > m + 1 {
        AckMonotoneM(n, m + 1, Ack(n + 1, m - 1));
      }
    }
  }

  /** For a fixed second argument, Ack is strictly increasing in the first. */
  lemma AckMonotoneN(n: nat, m: nat)
    ensures Ack(n, m) < Ack(n + 1, m)
  {
    AckDiagonal(n, m);
    AckStepM(n, m);
  }

  /** For a fixed second argument, Ack(n1, m) < Ack(n2, m) whenever n1 < n2. */
  lemma {:induction false} AckIncreasingN(n1: nat, n2: nat, m: nat)
    requires n1 < n2
    ensures Ack(n1, m) < Ack(n2, m)
    decreases n2 - n1
  {
    AckMonotoneN(n1, m);
    if n1 + 1 < n2 {
      AckIncreasingN(n1 + 1, n2, m);
    }
  }

  // ----- Explicit-stack evaluation with a step guard -----

  /** Number of frame resolutions the explicit-stack evaluator performs for
      one application (n, m): one per application, plus those of the
      applications it reduces to. */
  ghost function Calls(n: nat, m: nat): nat
    decreases n, m
  {
    if n == 0 then 1
    else if m == 0 then 1 + Calls(n - 1, 1)
    else 1 + Calls(n, m - 1) + Calls(n - 1, Ack(n, m - 1))
  }

  /** The value of the whole computation once the top frame yields v:
      the pending continuations (innermost last) each apply Ack(k, ·). */
  function Resume(pending: seq<nat>, v: nat): nat
    decreases |pending|
  {
    if pending == [] then v
    else Resume(pending[..|pending| - 1], Ack(pending[|pending| - 1], v))
  }

  /** Frame resolutions the pending continuations still need once the top
      frame yields v. */
  ghost function ResumeCalls(pending: seq<nat>, v: nat): nat
    decreases |pending|
  {
    if pending == [] then 0
    else
      var k := pending[|pending| - 1];
      Calls(k, v) + ResumeCalls(pending[..|pending| - 1], Ack(k, v))
  }

  datatype Outcome = Value(v: nat) | ResourceExhausted

  /** Evaluates Ack(n, m) with an explicit stack of pending continuations
      instead of native recursion, resolving at most maxSteps frames. It
      succeeds exactly when the computation needs no more than maxSteps
      resolutions, and then returns the exact value. */
  method Evaluate(n: nat, m: nat, maxSteps: nat) returns (r: Outcome)
    ensures r == if Calls(n, m) <= maxSteps then Value(Ack(n, m)) else ResourceExhausted
  {
    var pending: seq<nat> := [];
    var a, b := n, m;
    var steps := 0;
    while true
      invariant Resume(pending, Ack(a, b)) == Ack(n, m)
      invariant steps + Calls(a, b) + ResumeCalls(pending, Ack(a, b)) == Calls(n, m)
      invariant steps <= maxSteps
      decreases Calls(a, b) + ResumeCalls(pending, Ack(a, b))
    {
      if steps == maxSteps {
        return ResourceExhausted;
      }
      steps := steps + 1;
      if a == 0 {
        if pending == [] {
          return Value(b + 1);
        }
        a, b, pending := pending[|pending| - 1], b + 1, pending[..|pending| - 1];
      } else if b == 0 {
        a, b := a - 1, 1;
      } else {
        assert (pending + [a - 1])[..|pending|] == pending;
        pending, b := pending + [a - 1], b - 1;
      }
    }
  }

  /** The spot values that the evaluator is expected to reproduce. */
  lemma SpotValues()
    ensures Ack(0, 0) == 1 && Ack(2, 2) == 7 && Ack(4, 0) == 13
  {
    AckTwo(2);
    AckThree(1);
    assert Pow2(4) == 16;
  }
}
