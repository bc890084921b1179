/** Processor chains: each packet goes through all stages before the next packet is taken. */
module Chains {
  import opened Media
  import opened Streams

  type Closer<!S> = S -> (S, Option<string>)

  /** A processor and, if it has one, its closing action, which may report an error. */
  datatype Stage<!S, !P, !E> = Stage(step: Step<S, P, P, E>, close: Option<Closer<S>>)

  /** What every stage of a chain has become and handed on. */
  type Flow<S, P, E> = seq<Out<S, P, E>>

  /** Runs each stage alone over the whole output of the stage before it. */
  function Through<S, P, E>(stages: seq<Stage<S, P, E>>, states: seq<S>, inputs: seq<P>): (flow: Flow<S, P, E>)
    requires |stages| == |states|
    ensures |flow| == |stages|
  {
    if stages == [] then []
    else
      var o := Drain(stages[0].step, states[0], inputs);
      [o] + Through(stages[1..], states[1..], o.packets)
  }

  function States<S, P, E>(flow: Flow<S, P, E>): (states: seq<S>)
    ensures |states| == |flow|
  {
    seq(|flow|, i requires 0 <= i < |flow| => flow[i].state)
  }

  /** All events of a flow, stage after stage. */
  function Reports<S, P, E>(flow: Flow<S, P, E>): seq<E> {
    if flow == [] then [] else flow[0].events + Reports(flow[1..])
  }

  function Unmoved<S, P, E>(states: seq<S>): (flow: Flow<S, P, E>)
    ensures |flow| == |states|
  {
    seq(|states|, i requires 0 <= i < |states| => Out(states[i], [], []))
  }

  /** One flow after another: the later states, the streams joined stage by stage. */
  function Joined<S, P, E>(a: Flow<S, P, E>, b: Flow<S, P, E>): (flow: Flow<S, P, E>)
    requires |a| == |b|
    ensures |flow| == |a|
  {
    seq(|a|, i requires 0 <= i < |a| => Out(b[i].state, a[i].packets + b[i].packets, a[i].events + b[i].events))
  }

  /** The chain fed packet by packet, as successive calls of Process feed it. */
  function PacketByPacket<S, P, E>(stages: seq<Stage<S, P, E>>, states: seq<S>, inputs: seq<P>): (flow: Flow<S, P, E>)
    requires |stages| == |states|
    ensures |flow| == |stages|
    decreases |inputs|
  {
    if inputs == [] then Unmoved(states)
    else
      var before := PacketByPacket(stages, states, inputs[..|inputs| - 1]);
      Joined(before, Through(stages, States(before), [inputs[|inputs| - 1]]))
  }

  /** No packets, no change: why the chain may stop early. */
  lemma {:induction false} NothingThrough<S, P, E>(stages: seq<Stage<S, P, E>>, states: seq<S>)
    requires |stages| == |states|
    ensures Through(stages, states, []) == Unmoved(states)
    ensures States(Through(stages, states, [])) == states
  {
    if stages != [] { NothingThrough(stages[1..], states[1..]); }
  }

  /** Feeding a stream in two parts is feeding it whole, for every stage's state and output. */
  lemma {:induction false} ThroughConcat<S, P, E>(stages: seq<Stage<S, P, E>>, states: seq<S>, a: seq<P>, b: seq<P>)
    requires |stages| == |states|
    ensures var first := Through(stages, states, a);
      Through(stages, states, a + b) == Joined(first, Through(stages, States(first), b))
    decreases |stages|
  {
    if stages != [] {
      var first := Through(stages, states, a);
      var one := Drain(stages[0].step, states[0], a);
      var two := Drain(stages[0].step, one.state, b);
      DrainConcat(stages[0].step, states[0], a, b);
      ThroughConcat(stages[1..], states[1..], one.packets, two.packets);
      assert States(first)[1..] == States(first[1..]);
      assert Through(stages, States(first), b)[1..] == Through(stages[1..], States(first[1..]), two.packets);
    }
  }

  /** Packet by packet through all stages is the same, for every stage, as stage by stage over the whole stream. */
  lemma {:induction false} ChainIsStreamComposition<S, P, E>(stages: seq<Stage<S, P, E>>, states: seq<S>,
          inputs: seq<P>)
    requires |stages| == |states|
    ensures PacketByPacket(stages, states, inputs) == Through(stages, states, inputs)
    decreases |inputs|
  {
    if inputs == [] {
      NothingThrough(stages, states);
    } else {
      var front, last := inputs[..|inputs| - 1], inputs[|inputs| - 1];
      ChainIsStreamComposition(stages, states, front);
      ThroughConcat(stages, states, front, [last]);
      assert front + [last] == inputs;
    }
  }

  lemma {:induction false} ReportsConcat<S, P, E>(a: Flow<S, P, E>, b: Flow<S, P, E>)
    ensures Reports(a + b) == Reports(a) + Reports(b)
  {
    if a == [] {
      assert a + b == b;
    } else {
      assert (a + b)[1..] == a[1..] + b;
      ReportsConcat(a[1..], b);
    }
  }

  /** Closes the stages in order; the first error is the one reported. */
  function CloseAll<S, P, E>(stages: seq<Stage<S, P, E>>, states: seq<S>): (r: (seq<S>, Option<string>))
    requires |stages| == |states|
    ensures |r.0| == |states|
    decreases |stages|
  {
    if stages == [] then ([], None)
    else
      var n := |stages| - 1;
      var (front, error) := CloseAll(stages[..n], states[..n]);
      match stages[n].close
      case None => (front + [states[n]], error)
      case Some(close) =>
        var (s, e) := close(states[n]);
        (front + [s], if error.None? then e else error)
  }

  /** What closing stage i reports. */
  function ErrorAt<S, P, E>(stages: seq<Stage<S, P, E>>, states: seq<S>, i: nat): Option<string>
    requires i < |stages| == |states|
  {
    if stages[i].close == None then None else stages[i].close.value(states[i]).1
  }

  /** Every stage that has a closing action takes it, on its own state and whatever the others report, and the error
      of the whole is that of the first stage that reports one. */
  lemma {:induction false} FirstErrorReported<S, P, E>(stages: seq<Stage<S, P, E>>, states: seq<S>)
    requires |stages| == |states|
    ensures var (after, error) := CloseAll(stages, states);
      && (forall i :: 0 <= i < |stages| ==>
            after[i] == if stages[i].close == None then states[i] else stages[i].close.value(states[i]).0)
      && (error == None <==> forall i :: 0 <= i < |stages| ==> ErrorAt(stages, states, i) == None)
      && (error != None ==> exists i ::
            && 0 <= i < |stages| && ErrorAt(stages, states, i) == error
            && forall j :: 0 <= j < i ==> ErrorAt(stages, states, j) == None)
    decreases |stages|
  {
    if stages != [] {
      var n := |stages| - 1;
      FirstErrorReported(stages[..n], states[..n]);
      assert forall i :: 0 <= i < n ==> ErrorAt(stages[..n], states[..n], i) == ErrorAt(stages, states, i);
      assert CloseAll(stages, states).1 ==
        if CloseAll(stages[..n], states[..n]).1 == None then ErrorAt(stages, states, n)
        else CloseAll(stages[..n], states[..n]).1;
    }
  }

  class Chain<!S, !P, !E> {
    const stages: seq<Stage<S, P, E>>
    var states: seq<S>

    ghost predicate Valid()
      reads this
    {
      |stages| == |states|
    }

    constructor (stages: seq<Stage<S, P, E>>, states: seq<S>)
      requires |stages| == |states|
      ensures Valid() && this.stages == stages && this.states == states
    {
      this.stages, this.states := stages, states;
    }

    method Process(packet: P) returns (events: seq<E>)
      requires Valid()
      modifies this
      ensures Valid()
      ensures var flow := Through(stages, old(states), [packet]);
        states == States(flow) && events == Reports(flow)
    {
      var packets := [packet];
      events := [];
      ghost var was := states;
      ghost var all := Through(stages, was, [packet]);
      ghost var passed: Flow<S, P, E> := [];
      for i := 0 to |stages|
        invariant Valid() && |passed| == i && |was| == |stages|
        invariant passed + Through(stages[i..], was[i..], packets) == all
        invariant states == States(passed) + was[i..]
        invariant events == Reports(passed)
      {
        if |packets| == 0 {
          assert packets == [];
          EarlyExit(stages[i..], was[i..], passed);
          return;
        }
        var nextPackets, stageEvents := FeedStage(i, packets);
        ghost var o := Drain(stages[i].step, was[i], packets);
        AdvanceFlow(stages, was, packets, passed, i);
        ReplaceAt(States(passed), was, i, o.state);
        events := events + stageEvents;
        packets := nextPackets;
        passed := passed + [o];
      }
      assert passed + [] == passed && states == States(passed) + [];
    }

    /** Every current packet goes through stage i before the next stage is taken. */
    method FeedStage(i: nat, packets: seq<P>) returns (nextPackets: seq<P>, events: seq<E>)
      requires Valid() && i < |stages|
      modifies this
      ensures Valid()
      ensures var o := Drain(stages[i].step, old(states[i]), packets);
        states == old(states)[i := o.state] && nextPackets == o.packets && events == o.events
    {
      nextPackets, events := [], [];
      for j := 0 to |packets|
        invariant Valid()
        invariant var part := Drain(stages[i].step, old(states[i]), packets[..j]);
          states == old(states)[i := part.state] && nextPackets == part.packets && events == part.events
      {
        assert packets[..j + 1][..j] == packets[..j];
        var result := stages[i].step(states[i], packets[j]);
        states := states[i := result.state];
        events := events + result.events;
        nextPackets := nextPackets + result.packets;
      }
      assert packets[..|packets|] == packets;
    }

    method Close() returns (error: Option<string>)
      requires Valid()
      modifies this
      ensures Valid()
      ensures (states, error) == CloseAll(stages, old(states))
    {
      error := None;
      ghost var was := states;
      for i := 0 to |stages|
        invariant Valid()
        invariant |states| == |was| && forall j :: i <= j < |was| ==> states[j] == was[j]
        invariant (states[..i], error) == CloseAll(stages[..i], was[..i])
      {
        assert stages[..i + 1][..i] == stages[..i] && was[..i + 1][..i] == was[..i];
        if stages[i].close.Some? {
          var (s, e) := stages[i].close.value(states[i]);
          states := states[i := s];
          if e.Some? && error.None? {
            error := e;
          }
        }
        assert states[..i + 1] == states[..i] + [states[i]];
      }
      assert states[..|stages|] == states && stages[..|stages|] == stages && was[..|stages|] == was;
    }
  }

  lemma {:induction false} ReplaceAt<S>(done: seq<S>, was: seq<S>, i: nat, s: S)
    requires |done| == i < |was|
    ensures (done + was[i..])[i := s] == done + [s] + was[i + 1..] && (done + was[i..])[i] == was[i]
  {
  }

  lemma {:induction false} QuietRest<S, P, E>(states: seq<S>)
    ensures Reports<S, P, E>(Unmoved(states)) == []
  {
    if states != [] {
      QuietRest<S, P, E>(states[1..]);
      assert Unmoved<S, P, E>(states)[1..] == Unmoved<S, P, E>(states[1..]);
    }
  }

  lemma {:induction false} EarlyExit<S, P, E>(stages: seq<Stage<S, P, E>>, states: seq<S>, passed: Flow<S, P, E>)
    requires |stages| == |states|
    ensures var all := passed + Through(stages, states, []);
      States(all) == States(passed) + states && Reports(all) == Reports(passed)
  {
    NothingThrough(stages, states);
    var rest: Flow<S, P, E> := Unmoved(states);
    QuietRest<S, P, E>(states);
    ReportsConcat(passed, rest);
    StatesConcat(passed, rest);
    assert States(rest) == states;
    assert Reports(passed) + [] == Reports(passed);
  }

  lemma {:induction false} StatesConcat<S, P, E>(a: Flow<S, P, E>, b: Flow<S, P, E>)
    ensures States(a + b) == States(a) + States(b)
  {
  }

  lemma {:induction false} AdvanceFlow<S, P, E>(stages: seq<Stage<S, P, E>>, states: seq<S>, inputs: seq<P>,
          passed: Flow<S, P, E>, i: nat)
    requires |stages| == |states| && i < |stages| && |passed| == i
    ensures var o := Drain(stages[i].step, states[i], inputs);
      && passed + Through(stages[i..], states[i..], inputs)
          == passed + [o] + Through(stages[i + 1..], states[i + 1..], o.packets)
      && Reports(passed + [o]) == Reports(passed) + o.events
      && States(passed + [o]) == States(passed) + [o.state]
  {
    var o := Drain(stages[i].step, states[i], inputs);
    ReportsConcat(passed, [o]);
    assert [o][1..] == [];
    assert stages[i..][1..] == stages[i + 1..] && states[i..][1..] == states[i + 1..];
  }
}
