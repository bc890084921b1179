/** Every interleaving of the locked sections of one session, with the close-function calls and the closing
    of the done channel as later steps of their own. */
module CloseProtocol {
  import opened Media
  import opened CloseInfos
  import opened SessionModel

  /** What a thread still has to do after leaving the lock. */
  datatype Pending = CallFn(fn: nat) | CloseDone

  /** calls and doneCloses record what happened outside the lock; requests counts the RequestClose sections
      run, infos lists the close infos submitted to RequestClose and Finalize in the order of their sections. */
  datatype World = World(control: Control, pending: seq<Pending>, calls: seq<nat>, doneCloses: nat, requests: nat,
          infos: seq<CloseInfo>)

  const BEGIN := World(NEW_CONTROL, [], [], 0, 0, [])

  datatype Step =
    | Handshake
    | Activate
    | Bind(fn: Option<nat>)
    | Request(info: CloseInfo)
    | Finish(fallback: CloseInfo, now: int)
    | Proceed(i: nat)   // some thread does what it has pending

  function Owed(fn: Option<nat>): seq<Pending> {
    if fn.Some? then [CallFn(fn.value)] else []
  }

  function Next(w: World, step: Step): World {
    match step
    case Handshake => w.(control := BeginHandshake(w.control))
    case Activate => w.(control := MarkActive(w.control))
    case Bind(fn) =>
      var (c, owed) := BindCloseFunc(w.control, fn);
      w.(control := c, pending := w.pending + Owed(owed))
    case Request(info) =>
      var (c, owed) := RequestClose(w.control, info);
      w.(control := c, pending := w.pending + Owed(owed), requests := w.requests + 1, infos := w.infos + [info])
    case Finish(fallback, now) =>
      var (c, closeDone) := Finalize(w.control, fallback, now);
      w.(control := c, pending := w.pending + (if closeDone then [CloseDone] else []), infos := w.infos + [fallback])
    case Proceed(i) =>
      if i < |w.pending| then
        var rest := w.(pending := w.pending[..i] + w.pending[i + 1..]);
        match w.pending[i]
        case CallFn(fn) => rest.(calls := w.calls + [fn])
        case CloseDone => rest.(doneCloses := w.doneCloses + 1)
      else w
  }

  function Exec(schedule: seq<Step>): World {
    if schedule == [] then BEGIN
    else Next(Exec(schedule[..|schedule| - 1]), schedule[|schedule| - 1])
  }

  function CallsIn(pending: seq<Pending>): nat {
    if pending == [] then 0 else (if pending[0].CallFn? then 1 else 0) + CallsIn(pending[1..])
  }

  lemma {:induction false} CallsConcat(a: seq<Pending>, b: seq<Pending>)
    ensures CallsIn(a + b) == CallsIn(a) + CallsIn(b)
    ensures CallsIn(a) <= |a|
  {
    if a == [] {
      assert a + b == b;
    } else {
      assert (a + b)[1..] == a[1..] + b;
      CallsConcat(a[1..], b);
    }
  }

  lemma {:induction false} RemoveOne(pending: seq<Pending>, i: nat)
    requires i < |pending|
    ensures CallsIn(pending) == CallsIn(pending[..i] + pending[i + 1..]) + if pending[i].CallFn? then 1 else 0
  {
    var a, b := pending[..i], pending[i + 1..];
    assert a + ([pending[i]] + b) == pending;
    CallsConcat(a, [pending[i]] + b);
    CallsConcat([pending[i]], b);
    CallsConcat(a, b);
    assert [pending[i]][1..] == [];
  }

  function DonesIn(pending: seq<Pending>): int {
    |pending| - CallsIn(pending)
  }

  predicate Inv(w: World) {
    && Sound(w.control)
    && |w.calls| + CallsIn(w.pending) == (if w.control.closeFnCalled then 1 else 0)
    && w.doneCloses + DonesIn(w.pending) == (if w.control.doneOpen then 0 else 1)
    && (w.infos == [] <==> !w.control.closeRequested)
    && w.control.closeInfo == Fold(w.infos)
    && (w.requests > 0 ==> w.control.closeRequested && (w.control.closeFn.Some? ==> w.control.closeFnCalled))
  }

  lemma {:induction false} NormalizedMerge(infos: seq<CloseInfo>, info: CloseInfo)
    requires infos != []
    ensures Merge(Fold(infos), Normalize(info)) == Merge(Fold(infos), info) == Fold(infos + [info])
  {
    FoldIsFirstWins(infos);
    assert (infos + [info])[..|infos|] == infos;
  }

  lemma {:induction false} BindKeepsInv(w: World, fn: Option<nat>)
    requires Inv(w)
    ensures Inv(Next(w, Bind(fn)))
  {
    CallsConcat(w.pending, Owed(BindCloseFunc(w.control, fn).1));
  }

  lemma {:induction false} RequestKeepsInv(w: World, info: CloseInfo)
    requires Inv(w)
    ensures Inv(Next(w, Request(info)))
  {
    CallsConcat(w.pending, Owed(RequestClose(w.control, info).1));
    if w.infos != [] { NormalizedMerge(w.infos, info); }
  }

  lemma {:induction false} FinishKeepsInv(w: World, fallback: CloseInfo, now: int)
    requires Inv(w)
    ensures Inv(Next(w, Finish(fallback, now)))
  {
    CallsConcat(w.pending, [CloseDone]);
    CallsConcat([CloseDone], []);
    if w.infos != [] { NormalizedMerge(w.infos, fallback); }
  }

  lemma {:induction false} StepKeepsInv(w: World, step: Step)
    requires Inv(w)
    ensures Inv(Next(w, step))
  {
    match step
    case Handshake =>
    case Activate =>
    case Bind(fn) => BindKeepsInv(w, fn);
    case Request(info) => RequestKeepsInv(w, info);
    case Finish(fallback, now) => FinishKeepsInv(w, fallback, now);
    case Proceed(i) => if i < |w.pending| { RemoveOne(w.pending, i); }
  }

  lemma {:induction false} Always(schedule: seq<Step>)
    ensures Inv(Exec(schedule))
    decreases |schedule|
  {
    if schedule != [] {
      Always(schedule[..|schedule| - 1]);
      StepKeepsInv(Exec(schedule[..|schedule| - 1]), schedule[|schedule| - 1]);
    }
  }

  // ----- what holds of every interleaving

  /** At most one close function is ever called, rebinding or not; once a RequestClose section has run and a
      function is bound, in either order, exactly one call has been made or is owed. */
  lemma {:induction false} CloseFunctionExactlyOnce(schedule: seq<Step>)
    ensures var w := Exec(schedule);
      && |w.calls| <= 1
      && (w.requests > 0 && w.control.closeFn.Some? ==> |w.calls| + CallsIn(w.pending) == 1)
      && (w.requests > 0 && w.control.closeFn.Some? && w.pending == [] ==> |w.calls| == 1)
      && (!w.control.closeRequested ==> w.calls == [] && CallsIn(w.pending) == 0)
  {
    Always(schedule);
    CallsConcat(Exec(schedule).pending, []);
  }

  /** The done channel is closed at most once; it has been given up for closing iff the session is Closed. */
  lemma {:induction false} DoneClosedOnce(schedule: seq<Step>)
    ensures var w := Exec(schedule);
      && w.doneCloses <= 1
      && (w.control.life == Closed <==> !w.control.doneOpen)
      && (w.control.life == Closed <==> w.doneCloses + DonesIn(w.pending) == 1)
      && (w.control.life == Closed && w.pending == [] ==> w.doneCloses == 1)
  {
    Always(schedule);
    CallsConcat(Exec(schedule).pending, []);
  }

  /** The close info is the first-wins fold of everything submitted, and the life follows its cause. */
  lemma {:induction false} ReasonIsFirstWins(schedule: seq<Step>)
    ensures var w := Exec(schedule);
      && w.control.closeInfo == Fold(w.infos)
      && (w.infos != [] ==>
            && w.control.closeInfo.cause == (if w.infos[0].cause == Unset then Disconnect else w.infos[0].cause)
            && w.control.closeInfo.reason == FirstSet(Reasons(w.infos))
            && w.control.closeInfo.initiator == FirstSet(Initiators(w.infos))
            && w.control.closeInfo.err == FirstSet(Errors(w.infos)))
      && (w.control.closeRequested <==> Terminal(w.control))
      && (w.control.closeRequested <==> w.infos != [])
      && (w.control.life == Failed ==> w.control.closeInfo.cause == Error)
      && (w.control.life == Closing ==> w.control.closeInfo.cause != Error)
  {
    Always(schedule);
    if Exec(schedule).infos != [] { FoldIsFirstWins(Exec(schedule).infos); }
  }

  /** How a terminal session may change. */
  predicate StaysTerminal(c: Control, later: Control) {
    && (Terminal(c) ==> Terminal(later) && later.closeInfo.cause == c.closeInfo.cause)
    && (c.life == Closed ==> later.life == Closed && later.closedAt == c.closedAt)
    && (c.life == Failed ==> later.life == Failed || later.life == Closed)
    && (c.life == Closing ==> later.life == Closing || later.life == Closed)
  }

  lemma {:induction false} StepStaysTerminal(w: World, step: Step)
    requires Sound(w.control)
    ensures StaysTerminal(w.control, Next(w, step).control)
  {
  }

  /** No step leaves a terminal life, none leaves Closed, and none changes the cause of a terminal session. */
  lemma {:induction false} TerminalForGood(schedule: seq<Step>, more: seq<Step>)
    ensures StaysTerminal(Exec(schedule).control, Exec(schedule + more).control)
    decreases |more|
  {
    if more == [] {
      assert schedule + more == schedule;
    } else {
      var all := schedule + more;
      assert all[..|all| - 1] == schedule + more[..|more| - 1];
      TerminalForGood(schedule, more[..|more| - 1]);
      Always(all[..|all| - 1]);
      StepStaysTerminal(Exec(all[..|all| - 1]), all[|all| - 1]);
    }
  }

  /** Finalizing again with the same fallback changes nothing and owes nothing. */
  lemma {:induction false} FinalizeIdempotent(c: Control, fallback: CloseInfo, now: int, again: int)
    requires Sound(c)
    ensures var (c', _) := Finalize(c, fallback, now);
      Finalize(c', fallback, again) == (c', false) && Sound(c')
  {
  }

  /** The stage of the call that was reached last. */
  function Reached(schedule: seq<Step>): Life {
    if schedule == [] then Connected
    else
      match schedule[|schedule| - 1]
      case Handshake => Handshaking
      case Activate => Active
      case _ => Reached(schedule[..|schedule| - 1])
  }

  predicate Finalized(schedule: seq<Step>) {
    schedule != [] && (schedule[|schedule| - 1].Finish? || Finalized(schedule[..|schedule| - 1]))
  }

  /** What the life is, given the stage reached and whether the session has been finalized. */
  predicate Follows(w: World, reached: Life, finalized: bool) {
    && (finalized ==> w.infos != [])
    && w.control.life ==
         if w.infos == [] then reached
         else if finalized then Closed
         else if w.infos[0].cause == Error then Failed else Closing
  }

  lemma {:induction false} LifeStep(w: World, step: Step, reached: Life, finalized: bool)
    requires Inv(w) && Inv(Next(w, step)) && Follows(w, reached, finalized)
    ensures Follows(Next(w, step),
                    if step.Handshake? then Handshaking else if step.Activate? then Active else reached,
                    step.Finish? || finalized)
  {
    var infos := Next(w, step).infos;
    if infos != [] { FoldIsFirstWins(infos); }
  }

  /** Until something is submitted, the life is the stage reached last; from then on it is Closed if the session has
      been finalized, otherwise Failed if the first info submitted says error, otherwise Closing. */
  lemma {:induction false} LifeFollows(schedule: seq<Step>)
    ensures var w := Exec(schedule);
      w.control.life ==
        if w.infos == [] then Reached(schedule)
        else if Finalized(schedule) then Closed
        else if w.infos[0].cause == Error then Failed else Closing
    ensures Follows(Exec(schedule), Reached(schedule), Finalized(schedule))
    decreases |schedule|
  {
    if schedule != [] {
      var front := schedule[..|schedule| - 1];
      LifeFollows(front);
      Always(front);
      Always(schedule);
      LifeStep(Exec(front), schedule[|front|], Reached(front), Finalized(front));
    }
  }

  // ----- which close function is called

  /** The function bound last. */
  function Bound(schedule: seq<Step>): Option<nat> {
    if schedule == [] then None
    else if schedule[|schedule| - 1].Bind? then schedule[|schedule| - 1].fn
    else Bound(schedule[..|schedule| - 1])
  }

  predicate Submits(schedule: seq<Step>) {
    schedule != [] &&
    (schedule[|schedule| - 1].Request? || schedule[|schedule| - 1].Finish? || Submits(schedule[..|schedule| - 1]))
  }

  /** The function whose call the schedule brings about: the one bound when a close is requested, or the one bound
      later to a session that is to be closed, whichever comes first. */
  function Fired(schedule: seq<Step>): Option<nat> {
    if schedule == [] then None
    else
      var front := schedule[..|schedule| - 1];
      FiredAfter(schedule[|front|], Bound(front), Submits(front), Fired(front))
  }

  function FiredAfter(step: Step, bound: Option<nat>, submits: bool, fired: Option<nat>): Option<nat> {
    match step
    case Request(_) => if fired == None then bound else fired
    case Bind(fn) => if fired == None && submits then fn else fired
    case _ => fired
  }

  /** Calls made and calls owed are of the one function. */
  predicate CallsOnly(w: World, fired: Option<nat>) {
    && (forall i :: 0 <= i < |w.calls| ==> fired == Some(w.calls[i]))
    && (forall i :: 0 <= i < |w.pending| && w.pending[i].CallFn? ==> fired == Some(w.pending[i].fn))
  }

  /** Binding, request and call so far. */
  predicate Agrees(w: World, bound: Option<nat>, submits: bool, fired: Option<nat>) {
    && CallsOnly(w, fired) && w.control.closeFn == bound
    && w.control.closeRequested == submits && w.control.closeFnCalled == fired.Some?
  }

  lemma {:induction false} FiredStep(w: World, step: Step, bound: Option<nat>, submits: bool, fired: Option<nat>)
    requires Agrees(w, bound, submits, fired)
    ensures Agrees(Next(w, step), if step.Bind? then step.fn else bound, step.Request? || step.Finish? || submits,
                   FiredAfter(step, bound, submits, fired))
  {
  }

  lemma {:induction false} FiredRun(schedule: seq<Step>)
    ensures Agrees(Exec(schedule), Bound(schedule), Submits(schedule), Fired(schedule))
    decreases |schedule|
  {
    if schedule != [] {
      var front := schedule[..|schedule| - 1];
      FiredRun(front);
      FiredStep(Exec(front), schedule[|front|], Bound(front), Submits(front), Fired(front));
    }
  }

  /** Under every interleaving the close function that is called, or is owed its call, is that one; rebinding later
      changes nothing. */
  lemma {:induction false} CallsTheBoundFunction(schedule: seq<Step>)
    ensures var w := Exec(schedule);
      && CallsOnly(w, Fired(schedule))
      && |w.calls| + CallsIn(w.pending) == (if Fired(schedule) == None then 0 else 1)
  {
    Always(schedule);
    FiredRun(schedule);
  }
}
