/** Recognition results under concurrency: one forwarder per recogniser session takes results from its
    session's queue, stamps them inside the lock and emits them outside it, while the packet path opens
    and stops sessions. Every critical section is one step; steps of different threads interleave freely. */
module AsrResults {
  import opened Media

  datatype Recognition = Recognition(text: string, final: bool)

  /** A result with the event index it was given, and whether a first-result metrics event goes with it. */
  datatype Stamped = Stamped(result: Recognition, index: nat, metrics: bool)

  /** What a forwarder is holding between its steps. */
  datatype Hand = Nothing | Taken(result: Recognition) | Ready(stamped: Stamped) | Gone

  /** The results the provider has delivered to the session so far, how many were taken, what was emitted. */
  datatype Forwarder = Forwarder(queue: seq<Recognition>, taken: nat, hand: Hand, out: seq<Stamped>)

  /** owners records, for each index given out so far, the forwarder that received it. */
  datatype State = State(ttfbSent: bool, index: nat, forwarders: seq<Forwarder>, owners: seq<nat>, stops: nat)

  const QUIET := State(false, 0, [], [], 0)

  datatype Step =
    | Open                             // NewSession succeeds and a forwarder is started
    | Stop                             // stopActiveSession: the next result is a first result again
    | Deliver(k: nat, r: Recognition)  // the provider puts a result on session k's channel
    | Take(k: nat)                     // forwarder k receives from the channel
    | Stamp(k: nat)                    // forwarder k runs the locked part of emitResult
    | Emit(k: nat)                     // forwarder k hands its events on
    | Quit(k: nat)                     // forwarder k sees a closed channel and returns

  predicate Enabled(s: State, step: Step) {
    match step
    case Open | Stop => true
    case Deliver(k, _) => k < |s.forwarders|
    case Take(k) => k < |s.forwarders| && s.forwarders[k].hand == Nothing
        && s.forwarders[k].taken < |s.forwarders[k].queue|
    case Stamp(k) => k < |s.forwarders| && s.forwarders[k].hand.Taken?
    case Emit(k) => k < |s.forwarders| && s.forwarders[k].hand.Ready?
    case Quit(k) => k < |s.forwarders| && s.forwarders[k].hand == Nothing
  }

  function Next(s: State, step: Step): State
    requires Enabled(s, step)
  {
    match step
    case Open => s.(forwarders := s.forwarders + [Forwarder([], 0, Nothing, [])])
    case Stop => s.(ttfbSent := false, stops := s.stops + 1)
    case Deliver(k, r) =>
      var f := s.forwarders[k];
      s.(forwarders := s.forwarders[k := f.(queue := f.queue + [r])])
    case Take(k) =>
      var f := s.forwarders[k];
      s.(forwarders := s.forwarders[k := f.(taken := f.taken + 1, hand := Taken(f.queue[f.taken]))])
    case Stamp(k) =>
      var f := s.forwarders[k];
      var index := (s.index + 1) % INDEX_WRAP;
      s.(ttfbSent := true, index := index, owners := s.owners + [k],
         forwarders := s.forwarders[k := f.(hand := Ready(Stamped(f.hand.result, index, !s.ttfbSent)))])
    case Emit(k) =>
      var f := s.forwarders[k];
      s.(forwarders := s.forwarders[k := f.(hand := Nothing, out := f.out + [f.hand.stamped])])
    case Quit(k) =>
      s.(forwarders := s.forwarders[k := s.forwarders[k].(hand := Gone)])
  }

  /** A run takes the enabled steps of a schedule; a step that is not enabled does not happen. */
  function Exec(schedule: seq<Step>): State {
    if schedule == [] then QUIET
    else
      var s := Exec(schedule[..|schedule| - 1]);
      var step := schedule[|schedule| - 1];
      if Enabled(s, step) then Next(s, step) else s
  }

  /** Everything a forwarder has stamped: what it emitted and what it is about to emit. */
  function Given(f: Forwarder): seq<Stamped> {
    if f.hand.Ready? then f.out + [f.hand.stamped] else f.out
  }

  /** Everything it has taken, in order. */
  function Received(f: Forwarder): seq<Recognition> {
    Results(Given(f)) + if f.hand.Taken? then [f.hand.result] else []
  }

  function Results(stamped: seq<Stamped>): (results: seq<Recognition>)
    ensures |results| == |stamped|
  {
    seq(|stamped|, i requires 0 <= i < |stamped| => stamped[i].result)
  }

  function Indices(stamped: seq<Stamped>): (indices: seq<nat>)
    ensures |indices| == |stamped|
  {
    seq(|stamped|, i requires 0 <= i < |stamped| => stamped[i].index)
  }

  /** The indices forwarder k received: the i-th index given out is i, modulo 2^32. */
  function Share(owners: seq<nat>, k: nat): seq<nat> {
    if owners == [] then []
    else
      var front := Share(owners[..|owners| - 1], k);
      if owners[|owners| - 1] == k then front + [|owners| % INDEX_WRAP] else front
  }

  /** How many of the stamped results carry a metrics event. */
  function Firsts(stamped: seq<Stamped>): nat {
    if stamped == [] then 0
    else Firsts(stamped[..|stamped| - 1]) + if stamped[|stamped| - 1].metrics then 1 else 0
  }

  function AllFirsts(forwarders: seq<Forwarder>): nat {
    if forwarders == [] then 0
    else AllFirsts(forwarders[..|forwarders| - 1]) + Firsts(Given(forwarders[|forwarders| - 1]))
  }

  lemma {:induction false} FirstsUpdate(forwarders: seq<Forwarder>, k: nat, f: Forwarder)
    requires k < |forwarders|
    ensures AllFirsts(forwarders[k := f]) == AllFirsts(forwarders) - Firsts(Given(forwarders[k])) + Firsts(Given(f))
    decreases |forwarders|
  {
    var n := |forwarders| - 1;
    if k < n {
      assert forwarders[k := f][..n] == forwarders[..n][k := f];
      FirstsUpdate(forwarders[..n], k, f);
    } else {
      assert forwarders[k := f][..n] == forwarders[..n];
    }
  }

  /** Only stamping a first result adds a metrics event. */
  lemma {:induction false} StepFirsts(s: State, step: Step)
    requires Enabled(s, step)
    ensures AllFirsts(Next(s, step).forwarders)
         == AllFirsts(s.forwarders) + if step.Stamp? && !s.ttfbSent then 1 else 0
  {
    var s' := Next(s, step);
    match step
    case Open =>
      assert s'.forwarders[..|s.forwarders|] == s.forwarders;
      assert Firsts(Given(Forwarder([], 0, Nothing, []))) == 0;
    case Stop =>
    case Stamp(k) =>
      FirstsUpdate(s.forwarders, k, s'.forwarders[k]);
      assert Given(s'.forwarders[k])[..|Given(s.forwarders[k])|] == Given(s.forwarders[k]);
    case _ =>
      FirstsUpdate(s.forwarders, step.k, s'.forwarders[step.k]);
      assert Given(s'.forwarders[step.k]) == Given(s.forwarders[step.k]);
  }

  predicate Inv(s: State) {
    && s.index == |s.owners| % INDEX_WRAP
    && (forall i :: 0 <= i < |s.owners| ==> s.owners[i] < |s.forwarders|)
    && AllFirsts(s.forwarders) <= s.stops + (if s.ttfbSent then 1 else 0)
    && (forall k :: 0 <= k < |s.forwarders| ==> Faithful(s, k))
  }

  predicate Faithful(s: State, k: nat)
    requires k < |s.forwarders|
  {
    var f := s.forwarders[k];
    && f.taken <= |f.queue|
    && Received(f) == f.queue[..f.taken]
    && Indices(Given(f)) == Share(s.owners, k)
  }

  lemma {:induction false} ShareSnoc(owners: seq<nat>, owner: nat, k: nat)
    ensures Share(owners + [owner], k) == if owner == k then Share(owners, k) + [(|owners| + 1) % INDEX_WRAP]
        else Share(owners, k)
  {
    assert (owners + [owner])[..|owners|] == owners;
  }

  lemma {:induction false} NoShare(owners: seq<nat>, k: nat)
    requires forall i :: 0 <= i < |owners| ==> owners[i] != k
    ensures Share(owners, k) == []
    decreases |owners|
  {
    if owners != [] { NoShare(owners[..|owners| - 1], k); }
  }

  lemma {:induction false} StepKeepsInv(s: State, step: Step)
    requires Inv(s) && Enabled(s, step)
    ensures Inv(Next(s, step))
  {
    StepFirsts(s, step);
    ModStep(|s.owners|);
    var s' := Next(s, step);
    forall k | 0 <= k < |s'.forwarders| ensures Faithful(s', k) { StepIsFaithful(s, step, k); }
  }

  lemma {:induction false} StepIsFaithful(s: State, step: Step, k: nat)
    requires Inv(s) && Enabled(s, step) && k < |Next(s, step).forwarders|
    ensures Faithful(Next(s, step), k)
  {
    if k == |s.forwarders| {
      NoShare(s.owners, k);
    } else {
      assert Faithful(s, k);
      match step
      case Open | Stop =>
      case Stamp(j) => StampIsFaithful(s, j, k);
      case _ => QueueStepIsFaithful(s, step, k);
    }
  }

  lemma {:induction false} ModStep(n: nat)
    ensures (n % INDEX_WRAP + 1) % INDEX_WRAP == (n + 1) % INDEX_WRAP
  {
  }

  lemma {:induction false} StampIsFaithful(s: State, j: nat, k: nat)
    requires Inv(s) && Enabled(s, Stamp(j)) && k < |s.forwarders|
    ensures Faithful(Next(s, Stamp(j)), k)
  {
    assert Faithful(s, k);
    ShareSnoc(s.owners, j, k);
    ModStep(|s.owners|);
    if j == k { StampGives(s.forwarders[k], Next(s, Stamp(j)).forwarders[k]); }
  }

  lemma {:induction false} StampGives(f: Forwarder, f': Forwarder)
    requires f.hand.Taken? && f'.hand.Ready? && f' == f.(hand := f'.hand)
    requires f'.hand.stamped.result == f.hand.result
    ensures Received(f') == Received(f)
    ensures Indices(Given(f')) == Indices(Given(f)) + [f'.hand.stamped.index]
  {
    assert Given(f') == Given(f) + [f'.hand.stamped];
    assert Results(Given(f')) == Results(Given(f)) + [f.hand.result];
  }

  lemma {:induction false} QueueStepIsFaithful(s: State, step: Step, k: nat)
    requires Inv(s) && Enabled(s, step) && k < |s.forwarders|
    requires step.Deliver? || step.Take? || step.Emit? || step.Quit?
    ensures Faithful(Next(s, step), k)
  {
    assert Faithful(s, k);
    var f, f' := s.forwarders[k], Next(s, step).forwarders[k];
    if step.k == k {
      assert Given(f') == Given(f);
      match step
      case Deliver(_, r) => assert f'.queue[..f'.taken] == f.queue[..f.taken];
      case Take(_) =>
        assert f.queue[..f.taken + 1] == f.queue[..f.taken] + [f.queue[f.taken]];
        assert Received(f') == Received(f) + [f.queue[f.taken]];
      case Emit(_) => assert Received(f') == Received(f);
      case Quit(_) => assert Received(f') == Received(f);
    }
  }

  lemma {:induction false} Always(schedule: seq<Step>)
    ensures Inv(Exec(schedule))
    decreases |schedule|
  {
    if schedule != [] {
      var front, step := schedule[..|schedule| - 1], schedule[|schedule| - 1];
      Always(front);
      if Enabled(Exec(front), step) { StepKeepsInv(Exec(front), step); }
    }
  }

  // ----- what holds of every interleaving

  /** Below the wrap the indices a forwarder receives increase strictly, are among 1..n, and the i-th index
      given out is i. */
  lemma {:induction false} ShareBelowWrap(owners: seq<nat>, k: nat)
    requires |owners| < INDEX_WRAP
    ensures forall i :: 0 <= i < |Share(owners, k)| ==>
        1 <= Share(owners, k)[i] <= |owners| && owners[Share(owners, k)[i] - 1] == k
    ensures forall i, j :: 0 <= i < j < |Share(owners, k)| ==> Share(owners, k)[i] < Share(owners, k)[j]
    ensures forall n :: 1 <= n <= |owners| && owners[n - 1] == k ==> n in Share(owners, k)
    decreases |owners|
  {
    if owners != [] {
      ShareBelowWrap(owners[..|owners| - 1], k);
      var front := Share(owners[..|owners| - 1], k);
      assert |owners| % INDEX_WRAP == |owners|;
      if owners[|owners| - 1] == k {
        assert Share(owners, k) == front + [|owners|];
      }
    }
  }

  /** The results emitted for a session are a prefix of what the provider delivered to it, in order. */
  lemma {:induction false} EmittedInQueueOrder(schedule: seq<Step>, k: nat)
    requires k < |Exec(schedule).forwarders|
    ensures var f := Exec(schedule).forwarders[k];
      |f.out| <= |f.queue| && Results(f.out) == f.queue[..|f.out|]
  {
    Always(schedule);
    var s := Exec(schedule);
    var f := s.forwarders[k];
    assert Faithful(s, k);
    var n := |f.out|;
    assert Results(Given(f))[..n] == Results(f.out);
    assert Received(f)[..n] == Results(Given(f))[..n];
    assert f.queue[..f.taken][..n] == f.queue[..n];
  }

  lemma {:induction false} EmittedFromShare(s: State, k: nat)
    requires k < |s.forwarders| && Faithful(s, k)
    ensures var f := s.forwarders[k];
      |f.out| <= |Share(s.owners, k)| && forall i :: 0 <= i < |f.out| ==> f.out[i].index == Share(s.owners, k)[i]
  {
    var f := s.forwarders[k];
    forall i | 0 <= i < |f.out| ensures f.out[i].index == Share(s.owners, k)[i] {
      assert Indices(Given(f))[i] == f.out[i].index;
    }
  }

  lemma {:induction false} OwnerOfEmitted(s: State, k: nat, i: nat)
    requires k < |s.forwarders| && Faithful(s, k) && i < |s.forwarders[k].out| && |s.owners| < INDEX_WRAP
    ensures var n := s.forwarders[k].out[i].index; 1 <= n <= |s.owners| && s.owners[n - 1] == k
  {
    EmittedFromShare(s, k);
    ShareBelowWrap(s.owners, k);
  }

  /** The index counts the results stamped, modulo 2^32. */
  lemma {:induction false} IndexCounts(schedule: seq<Step>)
    ensures var s := Exec(schedule); s.index == |s.owners| % 0x1_0000_0000
  {
    Always(schedule);
  }

  /** With fewer than 2^32 results the indices given out are exactly 1..n, each to one forwarder. */
  lemma {:induction false} IndicesGivenOnce(schedule: seq<Step>, k: nat)
    requires var s := Exec(schedule); k < |s.forwarders| && |s.owners| < 0x1_0000_0000
    ensures var s := Exec(schedule);
      && s.index == |s.owners|
      && (forall n :: 1 <= n <= |s.owners| ==> (s.owners[n - 1] == k <==> n in Indices(Given(s.forwarders[k]))))
  {
    Always(schedule);
    var s := Exec(schedule);
    assert Faithful(s, k);
    ShareBelowWrap(s.owners, k);
  }

  /** ... and no two emitted results share an index, whichever sessions they belong to. */
  lemma {:induction false} IndicesNeverRepeat(schedule: seq<Step>, k: nat, l: nat, i: nat, j: nat)
    requires var s := Exec(schedule);
      && k < |s.forwarders| && l < |s.forwarders| && |s.owners| < 0x1_0000_0000
      && i < |s.forwarders[k].out| && j < |s.forwarders[l].out| && (k != l || i != j)
    ensures var s := Exec(schedule);
      && 1 <= s.forwarders[k].out[i].index <= s.index
      && s.forwarders[k].out[i].index != s.forwarders[l].out[j].index
  {
    Always(schedule);
    var s := Exec(schedule);
    assert Faithful(s, k) && Faithful(s, l);
    OwnerOfEmitted(s, k, i);
    OwnerOfEmitted(s, l, j);
    if k == l {
      EmittedFromShare(s, k);
      ShareBelowWrap(s.owners, k);
    }
  }

  /** A forwarder that is gone emits nothing more; its queue may still grow. */
  lemma {:induction false} GoneStays(schedule: seq<Step>, more: seq<Step>, k: nat)
    requires k < |Exec(schedule).forwarders| && Exec(schedule).forwarders[k].hand == Gone
    ensures k < |Exec(schedule + more).forwarders|
    ensures var f, g := Exec(schedule).forwarders[k], Exec(schedule + more).forwarders[k];
      g.hand == Gone && g.out == f.out && g.taken == f.taken && f.queue <= g.queue
    decreases |more|
  {
    if more == [] {
      assert schedule + more == schedule;
    } else {
      assert (schedule + more)[..|schedule + more| - 1] == schedule + more[..|more| - 1];
      GoneStays(schedule, more[..|more| - 1], k);
    }
  }

  /** A forwarder that quits has emitted everything the provider delivers to its session, before and after, if and
      only if its queue was empty when it quit and nothing is delivered later. */
  lemma {:induction false} AllEmittedIff(schedule: seq<Step>, k: nat, more: seq<Step>)
    requires Enabled(Exec(schedule), Quit(k))
    ensures var before, after := Exec(schedule).forwarders[k], Exec(schedule + [Quit(k)] + more);
      k < |after.forwarders| &&
      (Results(after.forwarders[k].out) == after.forwarders[k].queue
       <==> before.taken == |before.queue| && after.forwarders[k].queue == before.queue)
  {
    var w := Exec(schedule);
    Always(schedule);
    assert Faithful(w, k);
    assert (schedule + [Quit(k)])[..|schedule + [Quit(k)]| - 1] == schedule;
    GoneStays(schedule + [Quit(k)], more, k);
    var f := w.forwarders[k];
    assert Received(f) == Results(f.out) + [] == Results(f.out);
  }

  /** At most one first-result metrics event for the start and one for each stop. */
  lemma {:induction false} FewMetrics(schedule: seq<Step>)
    ensures var s := Exec(schedule); AllFirsts(s.forwarders) <= 1 + s.stops
  {
    Always(schedule);
  }

  /** Some result has been stamped since the last stop, or since the beginning. */
  predicate StampedSinceStop(schedule: seq<Step>) {
    schedule != [] &&
    var front, step := schedule[..|schedule| - 1], schedule[|schedule| - 1];
    match step
    case Stop => false
    case Stamp(_) => Enabled(Exec(front), step) || StampedSinceStop(front)
    case _ => StampedSinceStop(front)
  }

  lemma {:induction false} FlagIsStamped(schedule: seq<Step>)
    ensures Exec(schedule).ttfbSent == StampedSinceStop(schedule)
    decreases |schedule|
  {
    if schedule != [] { FlagIsStamped(schedule[..|schedule| - 1]); }
  }

  /** A result carries a metrics event if and only if it is the first to be stamped since the last stop. */
  lemma {:induction false} FirstResultIff(schedule: seq<Step>, k: nat)
    requires Enabled(Exec(schedule), Stamp(k))
    ensures var f := Exec(schedule + [Stamp(k)]).forwarders[k];
      f.hand.Ready? && (f.hand.stamped.metrics <==> !StampedSinceStop(schedule))
  {
    assert (schedule + [Stamp(k)])[..|schedule|] == schedule;
    FlagIsStamped(schedule);
  }
}
