/** The synthesis stream: a bounded queue of chunks with a done signal, filled by callbacks of the provider, read by
    one consumer, and closed and failed from any thread. */
module TtsQueue {
  import opened Media

  const CAPACITY := 32

  /** What the stream itself keeps: the channel's contents, whether done is closed, whether the body of the
      once-only close has begun, and the error. */
  datatype Stream = Stream(chunks: seq<Payload>, done: bool, closed: bool, err: Option<string>)

  const FRESH := Stream([], false, false, None)

  datatype Received = Got(chunk: Payload) | Eof | Failed(err: string)

  function Send(s: Stream, chunk: Payload): Stream {
    s.(chunks := s.chunks + [chunk])
  }

  function Take(s: Stream): Stream
    requires s.chunks != []
  {
    s.(chunks := s.chunks[1..])
  }

  /** What Recv answers when it found the queue empty after done. */
  function Final(s: Stream): Received {
    if s.err.Some? then Failed(s.err.value) else Eof
  }

  /** No error is no change, and an error already set stays. */
  function SetErr(s: Stream, err: Option<string>): Stream {
    if s.err.None? then s.(err := err) else s
  }

  function Shut(s: Stream): Stream {
    s.(closed := true, done := true)
  }

  /** The stream as an object. Each method is one call that no other call interrupts; the interleavings are
      treated below on the steps these calls consist of. */
  class AliyunStream {
    var chunks: seq<Payload>
    var done: bool
    var closed: bool
    var err: Option<string>

    ghost function View(): Stream
      reads this
    {
      Stream(chunks, done, closed, err)
    }

    constructor ()
      ensures View() == FRESH
    {
      chunks, done, closed, err := [], false, false, None;
    }

    /** With a chunk queued and done closed either branch of the select may run; takeDone says which. None: the
        call blocks. */
    method Recv(takeDone: bool) returns (r: Option<Received>)
      modifies this`chunks
      ensures r.None? <==> old(chunks) == [] && !done
      ensures old(chunks) != [] ==> r == Some(Got(old(chunks)[0])) && View() == Take(old(View()))
      ensures old(chunks) == [] ==> View() == old(View()) && (done ==> r == Some(Final(View())))
    {
      if chunks != [] && !(takeDone && done) {
        var chunk := chunks[0];
        chunks := chunks[1..];
        return Some(Got(chunk));
      } else if done {
        if chunks != [] {
          var chunk := chunks[0];
          chunks := chunks[1..];
          return Some(Got(chunk));
        }
        if err.Some? {
          return Some(Failed(err.value));
        }
        return Some(Eof);
      }
      return None;
    }

    /** False: the call blocks because the queue is full. */
    method PushChunk(data: Payload) returns (returned: bool)
      requires |chunks| <= CAPACITY
      modifies this`chunks
      ensures |chunks| <= CAPACITY
      ensures returned <==> data == [] || done || |old(chunks)| < 32
      ensures View() == if data != [] && !done && returned then Send(old(View()), data) else old(View())
    {
      if |data| == 0 {
        return true;
      }
      if done {
        return true;
      }
      if |chunks| < CAPACITY {
        chunks := chunks + [data];
        return true;
      }
      return false;
    }

    method SetError(e: Option<string>)
      modifies this`err
      ensures View() == SetErr(old(View()), e)
    {
      if e.None? {
        return;
      }
      if err.None? {
        err := e;
      }
    }

    method Close()
      requires closed ==> done
      modifies this`closed, this`done
      ensures View() == Shut(old(View()))
    {
      if !closed {
        closed := true;
        done := true;
      }
    }

    method WaitCompletion(e: Option<string>)
      requires closed ==> done
      modifies this`err, this`closed, this`done
      ensures View() == Shut(SetErr(old(View()), e))
    {
      if e.Some? {
        SetError(e);
      }
      Close();
    }
  }

  // ----- interleavings

  /** Where the consumer stands: in the outer select, in the inner one after seeing done, or about to read the
      error after finding the queue empty. */
  datatype Consumer = Choosing | SawDone | FoundEmpty

  /** A last answer of Recv, and how many errors had been reported when it was given. */
  datatype Answer = Answer(outcome: Received, seen: nat)

  /** sending holds the chunks of the producers that are past the first check; closers counts the threads inside
      the body of the once-only close. The rest records the run: chunks accepted and returned, final answers,
      errors reported, how often done was closed, and, from that moment, the number of chunks accepted (mark)
      and of producers past the check (late). */
  datatype World = World(stream: Stream, sending: seq<Payload>, consumer: Consumer, closers: nat,
                         accepted: seq<Payload>, returned: seq<Payload>, answers: seq<Answer>,
                         failures: seq<string>, doneCloses: nat, mark: nat, late: nat)

  const BEGIN := World(FRESH, [], Choosing, 0, [], [], [], [], 0, 0, 0)

  datatype Step =
    | Offer(data: Payload)   // a producer enters pushChunk and makes the first check
    | Deliver(i: nat)        // a producer past the check puts its chunk into the queue
    | GiveUp(i: nat)         // a producer past the check sees done
    | TakeFirst              // the consumer's outer select receives a chunk
    | SeeDone                // the consumer's outer select sees done
    | TakeRest               // the inner select receives a chunk
    | FindEmpty              // the inner select finds the queue empty
    | Conclude               // the consumer reads the error and answers
    | Fail(err: string)      // setError
    | BeginClose             // Close: the locked section of the once-only body, or nothing if it has run
    | FinishClose            // Close: done is closed

  predicate Enabled(w: World, step: Step) {
    match step
    case Offer(_) | Fail(_) | BeginClose => true
    case Deliver(i) => i < |w.sending| && |w.stream.chunks| < CAPACITY
    case GiveUp(i) => i < |w.sending| && w.stream.done
    case TakeFirst => w.consumer == Choosing && w.stream.chunks != []
    case SeeDone => w.consumer == Choosing && w.stream.done
    case TakeRest => w.consumer == SawDone && w.stream.chunks != []
    case FindEmpty => w.consumer == SawDone && w.stream.chunks == []
    case Conclude => w.consumer == FoundEmpty
    case FinishClose => w.closers > 0
  }

  function Without<T>(s: seq<T>, i: nat): (r: seq<T>)
    requires i < |s|
    ensures |r| == |s| - 1
  {
    s[..i] + s[i + 1..]
  }

  function Next(w: World, step: Step): World
    requires Enabled(w, step)
  {
    match step
    case Offer(data) => if data == [] || w.stream.done then w else w.(sending := w.sending + [data])
    case Deliver(i) =>
      w.(stream := Send(w.stream, w.sending[i]), sending := Without(w.sending, i),
          accepted := w.accepted + [w.sending[i]])
    case GiveUp(i) => w.(sending := Without(w.sending, i))
    case TakeFirst | TakeRest =>
      w.(stream := Take(w.stream), consumer := Choosing, returned := w.returned + [w.stream.chunks[0]])
    case SeeDone => w.(consumer := SawDone)
    case FindEmpty => w.(consumer := FoundEmpty)
    case Conclude => w.(consumer := Choosing, answers := w.answers + [Answer(Final(w.stream), |w.failures|)])
    case Fail(err) => w.(stream := SetErr(w.stream, Some(err)), failures := w.failures + [err])
    case BeginClose => if w.stream.closed then w else w.(stream := w.stream.(closed := true), closers := w.closers + 1)
    case FinishClose =>
      w.(stream := w.stream.(done := true), closers := w.closers - 1, doneCloses := w.doneCloses + 1,
         mark := |w.accepted|, late := |w.sending|)
  }

  /** A run takes the enabled steps of a schedule; a step that is not enabled does not happen. */
  function Exec(w: World, schedule: seq<Step>): World {
    if schedule == [] then w
    else
      var before := Exec(w, schedule[..|schedule| - 1]);
      var step := schedule[|schedule| - 1];
      if Enabled(before, step) then Next(before, step) else before
  }

  function FirstOf(failures: seq<string>): Received {
    if failures == [] then Eof else Failed(failures[0])
  }

  predicate QueueInv(w: World) {
    && w.accepted == w.returned + w.stream.chunks
    && |w.stream.chunks| <= CAPACITY
    && (w.consumer != Choosing ==> w.stream.done)
    && (w.consumer == FoundEmpty || w.answers != [] ==> w.stream.done && w.mark <= |w.returned|)
    && (w.stream.done ==> w.mark <= |w.accepted| && |w.accepted| - w.mark + |w.sending| <= w.late)
  }

  predicate CloseInv(w: World) {
    && w.closers + w.doneCloses == (if w.stream.closed then 1 else 0)
    && (w.stream.done <==> w.doneCloses == 1)
  }

  predicate ErrorInv(w: World) {
    && Final(w.stream) == FirstOf(w.failures)
    && (forall i :: 0 <= i < |w.answers| ==>
          && w.answers[i].seen <= |w.failures|
          && w.answers[i].outcome == FirstOf(w.failures[..w.answers[i].seen]))
    && (forall i, j :: 0 <= i < j < |w.answers| ==> w.answers[i].seen <= w.answers[j].seen)
  }

  lemma {:induction false} QueueStep(w: World, step: Step)
    requires QueueInv(w) && CloseInv(w) && Enabled(w, step)
    ensures QueueInv(Next(w, step)) && CloseInv(Next(w, step))
  {
    match step
    case Deliver(i) => assert w.accepted + [w.sending[i]] == w.returned + (w.stream.chunks + [w.sending[i]]);
    case TakeFirst | TakeRest =>
      assert w.stream.chunks == [w.stream.chunks[0]] + w.stream.chunks[1..];
      assert w.accepted == (w.returned + [w.stream.chunks[0]]) + w.stream.chunks[1..];
    case _ =>
  }

  lemma {:induction false} ErrorStep(w: World, step: Step)
    requires ErrorInv(w) && Enabled(w, step)
    ensures ErrorInv(Next(w, step))
  {
    match step
    case Fail(err) =>
      var failures := w.failures + [err];
      forall k | 0 <= k <= |w.failures| ensures failures[..k] == w.failures[..k] {}
    case Conclude => assert w.failures[..|w.failures|] == w.failures;
    case _ =>
  }

  lemma {:induction false} Always(schedule: seq<Step>)
    ensures var w := Exec(BEGIN, schedule); QueueInv(w) && CloseInv(w) && ErrorInv(w)
    decreases |schedule|
  {
    if schedule != [] {
      var front, step := schedule[..|schedule| - 1], schedule[|schedule| - 1];
      Always(front);
      var w := Exec(BEGIN, front);
      if Enabled(w, step) {
        QueueStep(w, step);
        ErrorStep(w, step);
      }
    }
  }

  /** Under every interleaving: chunks come back in the order they were accepted, none lost or repeated, the rest
      still queued, never more than 32, and a producer is held up only by that many; once Recv has given a final
      answer, every chunk accepted before done was closed has been returned. */
  lemma {:induction false} DeliveredInOrder(schedule: seq<Step>)
    ensures var w := Exec(BEGIN, schedule);
      && w.returned <= w.accepted
      && w.accepted[|w.returned|..] == w.stream.chunks && |w.stream.chunks| <= 32
      && (forall i :: 0 <= i < |w.sending| ==> (Enabled(w, Deliver(i)) <==> |w.stream.chunks| < 32))
      && (w.answers != [] ==> w.stream.done && w.mark <= |w.accepted| && w.accepted[..w.mark] <= w.returned)
  {
    Always(schedule);
    var w := Exec(BEGIN, schedule);
    if w.answers != [] {
      assert w.accepted[..w.mark] == w.returned[..w.mark];
    }
  }

  lemma {:induction false} ExecTwo(w: World, a: Step, b: Step)
    requires Enabled(w, a) && Enabled(Next(w, a), b)
    ensures Exec(w, [a, b]) == Next(Next(w, a), b)
  {
    assert [a][..0] == [] && Exec(w, [a]) == Next(w, a);
    assert [a, b][..1] == [a];
  }

  /** The steps of one call, none of another thread in between, are the call on the object: Close begins and finishes,
      and does nothing the second time; a chunk is offered and delivered, unless it is empty or the stream closed. */
  lemma {:induction false} UninterruptedCalls(w: World, data: Payload)
    requires CloseInv(w) && w.closers == 0
    ensures Shut(w.stream) == (if w.stream.closed then w.stream else Exec(w, [BeginClose, FinishClose]).stream)
    ensures Shut(w.stream).done && Shut(w.stream).chunks == w.stream.chunks && Shut(w.stream).err == w.stream.err
    ensures data != [] && !w.stream.done && |w.stream.chunks| < CAPACITY ==>
      Send(w.stream, data) == Exec(w, [Offer(data), Deliver(|w.sending|)]).stream
    ensures data == [] || w.stream.done ==> Next(w, Offer(data)) == w
  {
    if !w.stream.closed { ExecTwo(w, BeginClose, FinishClose); }
    if data != [] && !w.stream.done && |w.stream.chunks| < CAPACITY { ExecTwo(w, Offer(data), Deliver(|w.sending|)); }
  }

  predicate ProducerWaits(w: World, i: nat) {
    i < |w.sending| && !Enabled(w, Deliver(i)) && !Enabled(w, GiveUp(i))
  }

  predicate ConsumerWaits(w: World) {
    && !Enabled(w, TakeFirst) && !Enabled(w, SeeDone) && !Enabled(w, TakeRest)
    && !Enabled(w, FindEmpty) && !Enabled(w, Conclude)
  }

  lemma {:induction false} WhoWaits(w: World)
    requires |w.stream.chunks| <= CAPACITY && (w.consumer != Choosing ==> w.stream.done)
    ensures forall i :: 0 <= i < |w.sending| ==> (ProducerWaits(w, i) <==> |w.stream.chunks| == 32 && !w.stream.done)
    ensures ConsumerWaits(w) <==> w.stream.chunks == [] && !w.stream.done
  {
  }

  /** Under every interleaving a producer waits only for a full queue, the consumer only for an empty one, and
      neither once done is closed. */
  lemma {:induction false} WaitsIff(schedule: seq<Step>)
    ensures var w := Exec(BEGIN, schedule);
      && (forall i :: 0 <= i < |w.sending| ==> (ProducerWaits(w, i) <==> |w.stream.chunks| == 32 && !w.stream.done))
      && (ConsumerWaits(w) <==> w.stream.chunks == [] && !w.stream.done)
  {
    Always(schedule);
    WhoWaits(Exec(BEGIN, schedule));
  }

  /** Done is closed at most once however many threads close, and is closed as soon as nobody is inside Close
      after the first call. */
  lemma {:induction false} DoneClosedOnce(schedule: seq<Step>)
    ensures var w := Exec(BEGIN, schedule);
      && w.doneCloses <= 1 && (w.stream.done <==> w.doneCloses == 1)
      && (w.stream.closed ==> (w.closers == 0 <==> w.stream.done))
  {
    Always(schedule);
  }

  /** Every final answer reports the first error ever reported, or end of file if none had been by then; so after
      one failure all later answers are that failure. */
  lemma {:induction false} FirstErrorReported(schedule: seq<Step>)
    ensures var w := Exec(BEGIN, schedule);
      && (forall i :: 0 <= i < |w.answers| ==>
            && w.answers[i].seen <= |w.failures|
            && w.answers[i].outcome == FirstOf(w.failures[..w.answers[i].seen]))
      && (forall i, j :: 0 <= i < j < |w.answers| && w.answers[i].outcome.Failed? ==>
          w.answers[j].outcome == w.answers[i].outcome)
  {
    Always(schedule);
    var w := Exec(BEGIN, schedule);
    forall i, j | 0 <= i < j < |w.answers| && w.answers[i].outcome.Failed?
      ensures w.answers[j].outcome == w.answers[i].outcome
    {
      assert w.failures[..w.answers[i].seen] != [] && w.failures[..w.answers[j].seen] != [];
    }
  }

  /** Chunks accepted after done was closed come only from producers that were past the first check by then. */
  lemma {:induction false} LateChunksBounded(schedule: seq<Step>)
    ensures var w := Exec(BEGIN, schedule);
      w.stream.done ==> w.mark <= |w.accepted| <= w.mark + w.late
  {
    Always(schedule);
  }

  lemma {:induction false} ExecThen(w: World, schedule: seq<Step>, step: Step)
    ensures var before := Exec(w, schedule);
      Exec(w, schedule + [step]) == if Enabled(before, step) then Next(before, step) else before
  {
    assert (schedule + [step])[..|schedule + [step]| - 1] == schedule;
  }

  function AfterClose(chunk: Payload): World {
    World(Stream([], true, true, None), [chunk], Choosing, 0, [], [], [], [], 1, 0, 1)
  }

  lemma {:induction false} OfferedBeforeClose(chunk: Payload)
    requires chunk != []
    ensures Exec(BEGIN, [Offer(chunk)] + [BeginClose] + [FinishClose]) == AfterClose(chunk)
  {
    ExecThen(BEGIN, [], Offer(chunk));
    assert [] + [Offer(chunk)] == [Offer(chunk)];
    ExecThen(BEGIN, [Offer(chunk)], BeginClose);
    ExecThen(BEGIN, [Offer(chunk)] + [BeginClose], FinishClose);
  }

  lemma {:induction false} DeliveredAfterAnswer(chunk: Payload, schedule: seq<Step>)
    requires Exec(BEGIN, schedule) == AfterClose(chunk)
    ensures var w := Exec(BEGIN, schedule + [SeeDone] + [FindEmpty] + [Conclude] + [Deliver(0)]);
      w.answers == [Answer(Eof, 0)] && w.accepted == [chunk] && w.returned == []
  {
    ExecThen(BEGIN, schedule, SeeDone);
    ExecThen(BEGIN, schedule + [SeeDone], FindEmpty);
    ExecThen(BEGIN, schedule + [SeeDone] + [FindEmpty], Conclude);
    ExecThen(BEGIN, schedule + [SeeDone] + [FindEmpty] + [Conclude], Deliver(0));
  }

  /** Such a late chunk can miss the consumer: end of file is answered while a chunk is accepted but not returned. */
  lemma {:induction false} LateChunkMissed(chunk: Payload)
    requires chunk != []
    ensures var before, after := [Offer(chunk)] + [BeginClose] + [FinishClose],
        [SeeDone] + [FindEmpty] + [Conclude] + [Deliver(0)];
      var w := Exec(BEGIN, before + after);
      w.answers == [Answer(Eof, 0)] && w.accepted == [chunk] && w.returned == []
  {
    OfferedBeforeClose(chunk);
    var before, after := [Offer(chunk)] + [BeginClose] + [FinishClose],
        [SeeDone] + [FindEmpty] + [Conclude] + [Deliver(0)];
    DeliveredAfterAnswer(chunk, before);
    assert before + after == before + [SeeDone] + [FindEmpty] + [Conclude] + [Deliver(0)];
  }

  // ----- exactly when no accepted chunk can be missed

  /** In every continuation, a final answer means that every accepted chunk has been returned. */
  ghost predicate NeverMisses(w: World) {
    forall more :: Exec(w, more).answers != [] ==> Exec(w, more).returned == Exec(w, more).accepted
  }

  /** Done is closed and no producer is past the first check. */
  predicate Settled(w: World) {
    QueueInv(w) && CloseInv(w) && w.stream.done && w.sending == [] && w.mark == |w.accepted|
  }

  lemma {:induction false} StaysSettled(w: World, more: seq<Step>)
    requires Settled(w)
    ensures Settled(Exec(w, more))
    decreases |more|
  {
    if more != [] {
      var front, step := more[..|more| - 1], more[|more| - 1];
      StaysSettled(w, front);
      if Enabled(Exec(w, front), step) { QueueStep(Exec(w, front), step); }
    }
  }

  lemma {:induction false} SettledNeverMisses(w: World)
    requires Settled(w)
    ensures NeverMisses(w)
  {
    forall more | Exec(w, more).answers != []
      ensures Exec(w, more).returned == Exec(w, more).accepted
    {
      StaysSettled(w, more);
      var end := Exec(w, more);
      assert end.accepted == end.returned + end.stream.chunks;
      assert end.stream.chunks == [];
      assert end.returned + [] == end.returned;
    }
  }

  function Takes(n: nat): (steps: seq<Step>)
    ensures |steps| == n
  {
    seq(n, i => TakeFirst)
  }

  lemma {:induction false} TakenInOrder(w: World, n: nat)
    requires w.consumer == Choosing && n <= |w.stream.chunks|
    ensures Exec(w, Takes(n))
         == w.(stream := w.stream.(chunks := w.stream.chunks[n..]), returned := w.returned + w.stream.chunks[..n])
  {
    if n == 0 {
      assert w.returned + w.stream.chunks[..0] == w.returned;
      assert w.stream.chunks[0..] == w.stream.chunks;
    } else {
      TakenInOrder(w, n - 1);
      assert Takes(n)[..n - 1] == Takes(n - 1);
      var rest := w.stream.chunks[n - 1..];
      assert rest[1..] == w.stream.chunks[n..];
      assert w.returned + w.stream.chunks[..n - 1] + [rest[0]] == w.returned + w.stream.chunks[..n];
    }
  }

  /** From a drained queue: the consumer concludes, then a producer that was past the check delivers. */
  lemma {:induction false} ConcludesTooEarly(w: World, schedule: seq<Step>)
    requires var e := Exec(w, schedule);
      e.consumer == Choosing && e.stream.done && e.stream.chunks == [] && e.sending != [] && e.returned == e.accepted
    ensures var end := Exec(w, schedule + [SeeDone] + [FindEmpty] + [Conclude] + [Deliver(0)]);
      end.answers != [] && end.returned != end.accepted
  {
    ExecThen(w, schedule, SeeDone);
    ExecThen(w, schedule + [SeeDone], FindEmpty);
    ExecThen(w, schedule + [SeeDone] + [FindEmpty], Conclude);
    ExecThen(w, schedule + [SeeDone] + [FindEmpty] + [Conclude], Deliver(0));
    var e, end := Exec(w, schedule), Exec(w, schedule + [SeeDone] + [FindEmpty] + [Conclude] + [Deliver(0)]);
    assert |end.accepted| == |e.accepted| + 1 && end.returned == e.returned;
  }

  lemma {:induction false} UnsettledMisses(w: World)
    requires QueueInv(w) && w.stream.done && w.consumer == Choosing && w.sending != []
    ensures !NeverMisses(w)
  {
    var n := |w.stream.chunks|;
    TakenInOrder(w, n);
    assert w.stream.chunks[n..] == [] && w.stream.chunks[..n] == w.stream.chunks;
    ConcludesTooEarly(w, Takes(n));
  }

  /** At the moment done is closed: no continuation can miss an accepted chunk if and only if no producer is past
      the first check. */
  lemma {:induction false} NeverMissesIff(schedule: seq<Step>)
    requires Enabled(Exec(BEGIN, schedule), FinishClose)
    ensures var w := Exec(BEGIN, schedule + [FinishClose]); NeverMisses(w) <==> w.sending == []
  {
    Always(schedule);
    ExecThen(BEGIN, schedule, FinishClose);
    var before := Exec(BEGIN, schedule);
    QueueStep(before, FinishClose);
    var w := Next(before, FinishClose);
    if w.sending == [] {
      SettledNeverMisses(w);
    } else {
      UnsettledMisses(w);
    }
  }

  // ----- reading on after done

  /** One call of Recv on a closed stream, by its done branch. */
  function RecvClosed(w: World): World
    requires w.stream.done && w.consumer == Choosing
  {
    var seen := Next(w, SeeDone);
    if w.stream.chunks != [] then Next(seen, TakeRest) else Next(Next(seen, FindEmpty), Conclude)
  }

  function RecvTimes(w: World, n: nat): World
    requires w.stream.done && w.consumer == Choosing
    decreases n
  {
    if n == 0 then w else RecvTimes(RecvClosed(w), n - 1)
  }

  /** With done closed, as many uninterrupted calls as there are chunks queued return them all, and the next call
      gives the final answer. */
  lemma {:induction false} ReadToTheEnd(w: World)
    requires QueueInv(w) && CloseInv(w) && w.stream.done && w.consumer == Choosing
    ensures var n := |w.stream.chunks|; var r := RecvTimes(w, n + 1);
      && r.returned == w.accepted == r.accepted
      && r.answers == w.answers + [Answer(Final(w.stream), |w.failures|)]
    decreases |w.stream.chunks|
  {
    if w.stream.chunks == [] {
      assert RecvTimes(w, 1) == RecvTimes(RecvClosed(w), 0);
      assert w.returned + [] == w.returned;
    } else {
      QueueStep(w, SeeDone);
      QueueStep(Next(w, SeeDone), TakeRest);
      ReadToTheEnd(RecvClosed(w));
    }
  }
}
