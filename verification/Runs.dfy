/** Runs of a state machine: its steps are operations, and a failed operation is a step that changes nothing. */
module Runs {

  function Execute<S, O>(next: (S, O) -> S, s: S, ops: seq<O>): S {
    if ops == [] then s
    else next(Execute(next, s, ops[..|ops| - 1]), ops[|ops| - 1])
  }

  lemma ExecuteSnoc<S, O>(next: (S, O) -> S, s: S, ops: seq<O>, op: O)
    ensures Execute(next, s, ops + [op]) == next(Execute(next, s, ops), op)
  {
    assert (ops + [op])[..|ops|] == ops;
  }

  /** A run in two parts. */
  lemma {:induction false} ExecuteConcat<S, O>(next: (S, O) -> S, s: S, ops: seq<O>, more: seq<O>)
    ensures Execute(next, s, ops + more) == Execute(next, Execute(next, s, ops), more)
  {
    if more == [] {
      assert ops + more == ops;
    } else {
      var n := |more| - 1;
      assert ops + more == (ops + more[..n]) + [more[n]];
      ExecuteConcat(next, s, ops, more[..n]);
      ExecuteSnoc(next, s, ops + more[..n], more[n]);
    }
  }

  /** What holds at the start and is kept by every step of the run holds at the end. */
  lemma {:induction false} Invariance<S(!new), O(!new)>(next: (S, O) -> S, inv: S -> bool, s: S, ops: seq<O>)
    requires inv(s) && forall t, op :: op in ops && inv(t) ==> inv(next(t, op))
    ensures inv(Execute(next, s, ops))
  {
    if ops != [] {
      Invariance(next, inv, s, ops[..|ops| - 1]);
      assert ops[|ops| - 1] in ops;
    }
  }

  /** Some operation of the run meets a condition at the state it is applied to. */
  ghost predicate Happens<S(!new), O(!new)>(next: (S, O) -> S, s: S, ops: seq<O>, p: (S, O) -> bool) {
    exists n :: 0 <= n < |ops| && p(Execute(next, s, ops[..n]), ops[n])
  }

  lemma HappensSnoc<S(!new), O(!new)>(next: (S, O) -> S, s: S, ops: seq<O>, op: O, p: (S, O) -> bool)
    ensures Happens(next, s, ops + [op], p) <==> Happens(next, s, ops, p) || p(Execute(next, s, ops), op)
  {
    var all := ops + [op];
    assert all[..|ops|] == ops && all[|ops|] == op;
    if n :| 0 <= n < |all| && p(Execute(next, s, all[..n]), all[n]) {
      if n < |ops| { assert all[..n] == ops[..n] && all[n] == ops[n]; }
    }
    if n :| 0 <= n < |ops| && p(Execute(next, s, ops[..n]), ops[n]) {
      assert all[..n] == ops[..n] && all[n] == ops[n];
    }
  }

  /** A run that steps through a known sequence of states ends in the last of them. */
  lemma {:induction false} Follows<S, O>(next: (S, O) -> S, states: int -> S, lo: int, ops: seq<O>)
    requires forall i :: 0 <= i < |ops| ==> next(states(lo + i), ops[i]) == states(lo + i + 1)
    ensures Execute(next, states(lo), ops) == states(lo + |ops|)
  {
    if ops != [] {
      var n := |ops| - 1;
      Follows(next, states, lo, ops[..n]);
      assert next(states(lo + n), ops[n]) == states(lo + n + 1);
    }
  }

  /** One more operation, which leads from one stage to the next. */
  lemma LastStage<S(!new), O>(next: (S, O) -> S, p: S -> bool, q: S -> bool, s: S, ops: seq<O>, op: O)
    requires p(Execute(next, s, ops))
    requires forall t :: p(t) ==> q(next(t, op))
    ensures q(Execute(next, s, ops + [op]))
  {
    ExecuteSnoc(next, s, ops, op);
  }

  /** Three operations, each leading from one stage to the next. */
  lemma ThreeStages<S(!new), O>(next: (S, O) -> S, p0: S -> bool, p1: S -> bool, p2: S -> bool, p3: S -> bool, s: S,
          a: O, b: O, c: O)
    requires p0(s)
    requires forall t :: p0(t) ==> p1(next(t, a))
    requires forall t :: p1(t) ==> p2(next(t, b))
    requires forall t :: p2(t) ==> p3(next(t, c))
    ensures p3(Execute(next, s, [a, b, c]))
  {
    ExecuteSnoc(next, s, [], a);
    ExecuteSnoc(next, s, [a], b);
    ExecuteSnoc(next, s, [a, b], c);
    assert [] + [a] == [a] && [a] + [b] == [a, b] && [a, b] + [c] == [a, b, c];
  }
}
