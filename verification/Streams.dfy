/** Stages that consume a stream one item at a time, and what a whole stream does to them. */
module Streams {

  /** What one call of a stage leaves and hands on. */
  datatype Out<S, P, E> = Out(state: S, packets: seq<P>, events: seq<E>)

  type Step<!S, !I, !P, !E> = (S, I) -> Out<S, P, E>

  /** Feeds the inputs to a stage in order, collecting everything it hands on. */
  function Drain<S, I, P, E>(step: Step<S, I, P, E>, s: S, inputs: seq<I>): Out<S, P, E> {
    if inputs == [] then Out(s, [], [])
    else
      var before := Drain(step, s, inputs[..|inputs| - 1]);
      var last := step(before.state, inputs[|inputs| - 1]);
      Out(last.state, before.packets + last.packets, before.events + last.events)
  }

  /** A run may be cut anywhere: the second part continues from the state the first part left. */
  lemma {:induction false} DrainConcat<S, I, P, E>(step: Step<S, I, P, E>, s: S, a: seq<I>, b: seq<I>)
    ensures var first := Drain(step, s, a);
      var second := Drain(step, first.state, b);
      Drain(step, s, a + b) == Out(second.state, first.packets + second.packets, first.events + second.events)
    decreases |b|
  {
    if b == [] {
      assert a + b == a;
    } else {
      assert (a + b)[..|a + b| - 1] == a + b[..|b| - 1];
      DrainConcat(step, s, a, b[..|b| - 1]);
    }
  }

  lemma {:induction false} DrainOne<S, I, P, E>(step: Step<S, I, P, E>, s: S, i: I)
    ensures Drain(step, s, [i]) == step(s, i)
  {
    assert [i][..0] == [];
    assert Drain(step, s, []) == Out(s, [], []);
    var o := step(s, i);
    assert [] + o.packets == o.packets && [] + o.events == o.events;
  }

  /** Splitting off the first input. */
  lemma {:induction false} DrainFront<S, I, P, E>(step: Step<S, I, P, E>, s: S, inputs: seq<I>)
    requires inputs != []
    ensures var first := step(s, inputs[0]);
      var rest := Drain(step, first.state, inputs[1..]);
      Drain(step, s, inputs) == Out(rest.state, first.packets + rest.packets, first.events + rest.events)
  {
    assert [inputs[0]] + inputs[1..] == inputs;
    DrainOne(step, s, inputs[0]);
    DrainConcat(step, s, [inputs[0]], inputs[1..]);
  }

  /** A state together with the number of calls so far. */
  datatype Counted<S> = Counted(inner: S, calls: nat)

  /** A stage whose every call meets its own circumstances: call n sees env(n). */
  function Cued<S, P, C, I, Q, E>(step: Step<S, I, Q, E>, meet: (P, C) -> I, env: nat -> C): Step<Counted<S>, P, Q, E> {
    (s: Counted<S>, p: P) =>
      var o := step(s.inner, meet(p, env(s.calls)));
      Out(Counted(o.state, s.calls + 1), o.packets, o.events)
  }

  /** The inputs paired with the circumstances of the calls from n on. */
  function Met<P, C, I>(inputs: seq<P>, meet: (P, C) -> I, env: nat -> C, n: nat): (met: seq<I>)
    ensures |met| == |inputs|
  {
    seq(|inputs|, i requires 0 <= i < |inputs| => meet(inputs[i], env(n + i)))
  }

  lemma {:induction false} DrainCued<S, P, C, I, Q, E>(step: Step<S, I, Q, E>, meet: (P, C) -> I, env: nat -> C,
          s: S, n: nat, inputs: seq<P>)
    ensures var o := Drain(step, s, Met(inputs, meet, env, n));
      Drain(Cued(step, meet, env), Counted(s, n), inputs) == Out(Counted(o.state, n + |inputs|), o.packets, o.events)
    decreases |inputs|
  {
    if inputs != [] {
      var front := inputs[..|inputs| - 1];
      DrainCued(step, meet, env, s, n, front);
      var met := Met(inputs, meet, env, n);
      assert met[..|met| - 1] == Met(front, meet, env, n);
    }
  }

  /** A stage that does what another does, on states that contain the other's. */
  ghost predicate Embeds<S, T(!new), P(!new), Q, E>(outer: Step<S, P, Q, E>, inner: Step<T, P, Q, E>, wrap: T -> S) {
    forall t: T, p: P :: outer(wrap(t), p) ==
      Out(wrap(inner(t, p).state), inner(t, p).packets, inner(t, p).events)
  }

  lemma {:induction false} DrainEmbedded<S, T(!new), P(!new), Q, E>(outer: Step<S, P, Q, E>, inner: Step<T, P, Q, E>,
          wrap: T -> S, t: T, inputs: seq<P>)
    requires Embeds(outer, inner, wrap)
    ensures var o := Drain(inner, t, inputs);
      Drain(outer, wrap(t), inputs) == Out(wrap(o.state), o.packets, o.events)
    decreases |inputs|
  {
    if inputs != [] { DrainEmbedded(outer, inner, wrap, t, inputs[..|inputs| - 1]); }
  }

  /** In the good states the stage hands on what it is given, says nothing, and stays in them. */
  ghost predicate Passes<S(!new), P(!new), E>(step: Step<S, P, P, E>, good: S -> bool) {
    forall s, p {:trigger step(s, p)} :: good(s) ==>
      good(step(s, p).state) && step(s, p).packets == [p] && step(s, p).events == []
  }

  lemma {:induction false} DrainPasses<S(!new), P(!new), E>(step: Step<S, P, P, E>, good: S -> bool, s: S,
          inputs: seq<P>)
    requires Passes(step, good) && good(s)
    ensures var o := Drain(step, s, inputs); good(o.state) && o.packets == inputs && o.events == []
    decreases |inputs|
  {
    if inputs != [] {
      var front, last := inputs[..|inputs| - 1], inputs[|inputs| - 1];
      DrainPasses(step, good, s, front);
      assert front + [last] == inputs;
    }
  }
}
