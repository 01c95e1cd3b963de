/**
 State machines whose steps may fail.  A failed C++ `assert` (or a null
 dereference, or `back()` on an empty vector) ends a run in `Abort`; every other
 step ends in `Ok`.  An interleaving of threads is a list of events, so a claim
 about every interleaving is a claim about `Run` on every list.
 */
module Machine {

  datatype Outcome<+S> = Ok(state: S) | Abort(at: string) {
    predicate IsFailure() {
      Abort?
    }

    function PropagateFailure<T>(): Outcome<T>
      requires Abort?
    {
      Abort(at)
    }

    function Extract(): S
      requires Ok?
    {
      state
    }
  }

  datatype Checked = Pass | Fail(at: string) {
    predicate IsFailure() {
      Fail?
    }

    function PropagateFailure<T>(): Outcome<T>
      requires Fail?
    {
      Abort(at)
    }
  }

  /** A source-level assertion, named by its file and line. */
  function Check(condition: bool, at: string): Checked {
    if condition then Pass else Fail(at)
  }

  function Run<S, E>(step: (S, E) -> Outcome<S>, s: S, es: seq<E>): Outcome<S>
    decreases |es|
  {
    if es == [] then Ok(s)
    else
      match step(s, es[0])
      case Ok(t) => Run(step, t, es[1..])
      case Abort(at) => Abort(at)
  }

  /** What every step on an allowed event keeps, without aborting, every run of allowed
      events keeps, without aborting. */
  lemma {:induction false} RunKeepsOn<S(!new), E(!new)>(
      step: (S, E) -> Outcome<S>, inv: S -> bool, allowed: E -> bool, s: S, es: seq<E>)
    requires inv(s) && forall i :: 0 <= i < |es| ==> allowed(es[i])
    requires forall t: S, e: E :: inv(t) && allowed(e) ==> step(t, e).Ok? && inv(step(t, e).state)
    ensures Run(step, s, es).Ok? && inv(Run(step, s, es).state)
    decreases |es|
  {
    if es != [] {
      assert allowed(es[0]) && step(s, es[0]).Ok? && inv(step(s, es[0]).state);
      RunKeepsOn(step, inv, allowed, step(s, es[0]).state, es[1..]);
    }
  }

  /** What every step keeps, without aborting, every run keeps, without aborting. */
  lemma RunKeeps<S(!new), E(!new)>(step: (S, E) -> Outcome<S>, inv: S -> bool, s: S, es: seq<E>)
    requires inv(s)
    requires forall t: S, e: E :: inv(t) ==> step(t, e).Ok? && inv(step(t, e).state)
    ensures Run(step, s, es).Ok? && inv(Run(step, s, es).state)
  {
    RunKeepsOn(step, inv, _ => true, s, es);
  }

  lemma RunCons<S, E>(step: (S, E) -> Outcome<S>, s: S, e: E, es: seq<E>)
    requires step(s, e).Ok?
    ensures Run(step, s, [e] + es) == Run(step, step(s, e).state, es)
  {
    assert ([e] + es)[1..] == es;
  }

  /** Short runs, step by step; the last step may abort. */
  lemma RunOne<S, E>(step: (S, E) -> Outcome<S>, s: S, e: E)
    ensures Run(step, s, [e]) == step(s, e)
  {
    assert [e][1..] == [];
  }

  lemma RunTwo<S, E>(step: (S, E) -> Outcome<S>, s: S, a: E, b: E)
    requires step(s, a).Ok?
    ensures Run(step, s, [a, b]) == step(step(s, a).state, b)
  {
    RunCons(step, s, a, [b]);
    assert [a, b] == [a] + [b] && [b][1..] == [];
  }

  lemma RunThree<S, E>(step: (S, E) -> Outcome<S>, s: S, a: E, b: E, c: E)
    requires step(s, a).Ok? && step(step(s, a).state, b).Ok?
    ensures Run(step, s, [a, b, c]) == step(step(step(s, a).state, b).state, c)
  {
    RunCons(step, s, a, [b, c]);
    assert [a, b, c] == [a] + [b, c];
    RunTwo(step, step(s, a).state, b, c);
  }

  lemma RunFour<S, E>(step: (S, E) -> Outcome<S>, s: S, a: E, b: E, c: E, d: E)
    requires step(s, a).Ok? && step(step(s, a).state, b).Ok? && step(step(step(s, a).state, b).state, c).Ok?
    ensures Run(step, s, [a, b, c, d]) == step(step(step(step(s, a).state, b).state, c).state, d)
  {
    RunCons(step, s, a, [b, c, d]);
    assert [a, b, c, d] == [a] + [b, c, d];
    RunThree(step, step(s, a).state, b, c, d);
  }

  /** Running two lists in turn is running their concatenation. */
  lemma {:induction false} RunConcat<S, E>(step: (S, E) -> Outcome<S>, s: S, es: seq<E>, fs: seq<E>)
    requires Run(step, s, es).Ok?
    ensures Run(step, s, es + fs) == Run(step, Run(step, s, es).state, fs)
    decreases |es|
  {
    if es == [] {
      assert es + fs == fs;
    } else {
      assert (es + fs)[1..] == es[1..] + fs;
      RunConcat(step, step(s, es[0]).state, es[1..], fs);
    }
  }

  lemma RunSnoc<S, E>(step: (S, E) -> Outcome<S>, s: S, es: seq<E>, e: E)
    requires Run(step, s, es).Ok?
    ensures Run(step, s, es + [e]) == step(Run(step, s, es).state, e)
  {
    RunConcat(step, s, es, [e]);
    RunOne(step, Run(step, s, es).state, e);
  }

  /** What the steps of a run do by themselves, one after the other. */
  function Gathered<S, E, T>(step: (S, E) -> Outcome<S>, part: (S, E) -> seq<T>, s: S, es: seq<E>): seq<T>
    decreases |es|
  {
    if es == [] then []
    else
      match step(s, es[0])
      case Ok(t) => part(s, es[0]) + Gathered(step, part, t, es[1..])
      case Abort(_) => []
  }

  /** Over a run that does not abort, a history to which every step adds its part is what the
      run gathers. */
  lemma {:induction false} RunGathers<S(!new), E(!new), T>(
      step: (S, E) -> Outcome<S>, inv: S -> bool, allowed: E -> bool, history: S -> seq<T>, part: (S, E) -> seq<T>,
      s: S, es: seq<E>)
    requires inv(s) && Run(step, s, es).Ok? && forall i :: 0 <= i < |es| ==> allowed(es[i])
    requires forall t: S, e: E :: inv(t) && allowed(e) && step(t, e).Ok? ==>
               inv(step(t, e).state) && history(step(t, e).state) == history(t) + part(t, e)
    ensures history(Run(step, s, es).state) == history(s) + Gathered(step, part, s, es)
    decreases |es|
  {
    if es != [] {
      assert allowed(es[0]);
      var t := step(s, es[0]).state;
      assert inv(t) && history(t) == history(s) + part(s, es[0]);
      RunGathers(step, inv, allowed, history, part, t, es[1..]);
      assert history(s) + part(s, es[0]) + Gathered(step, part, t, es[1..])
          == history(s) + (part(s, es[0]) + Gathered(step, part, t, es[1..]));
    }
  }
}
