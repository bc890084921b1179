/** Pushes and closes of one media stream from several threads, stage by stage. A push first tests, under the lock,
    whether the stream is closed; later its packet goes through the detector, and what the detector hands on goes
    through the recogniser packet by packet. A close marks the stream, under the lock, and closes the recogniser
    later. Denoise and recorder pass packets on, and closing the detector leaves its state alone. */
module StreamRace {
  import opened Media
  import opened Streams
  import opened Chains
  import opened VadModel
  import opened Asr
  import opened Pipeline
  import opened Reopening

  /** inFlight holds the payloads of the pushes past the test and not yet at the detector, handed what each push
      behind the detector still has for the recogniser, closers counts the closes past the mark. The rest records
      the run: how often the recogniser was closed, and from the first time on its state then, the pushes in flight
      then (waiting), those that reached the detector since (lateDetects), and what the recogniser took since. */
  datatype World = World(closed: bool, inFlight: seq<Payload>, handed: seq<seq<Packet>>, closers: nat,
                         vad: Counted<VadState>, asr: Counted<AsrState>,
                         shuts: nat, atShut: AsrState, waiting: nat, lateDetects: nat, late: seq<Fed>)

  const BEGIN := World(false, [], [], 0, Counted(INITIAL, 0), Counted(FRESH, 0), 0, FRESH, 0, 0, [])

  datatype Step =
    | Test(data: Payload)   // Push: the locked test
    | Detect(i: nat)        // Push: the packet goes through the detector
    | Recognise(j: nat)     // Push: the next packet handed on goes through the recogniser
    | Mark                  // Close: the locked mark
    | Shutdown              // Close: the closing of the recogniser

  predicate Enabled(w: World, step: Step) {
    match step
    case Test(_) | Mark => true
    case Detect(i) => i < |w.inFlight|
    case Recognise(j) => j < |w.handed| && w.handed[j] != []
    case Shutdown => w.closers > 0
  }

  function Next(u: Setup, w: World, step: Step): World
    requires Enabled(w, step)
  {
    match step
    case Test(data) => if w.closed then w else w.(inFlight := w.inFlight + [data])
    case Detect(i) =>
      var o := VadInner(u)(w.vad, AudioPacket(u.trackID, w.inFlight[i]));
      w.(inFlight := w.inFlight[..i] + w.inFlight[i + 1..], vad := o.state, handed := w.handed + [o.packets],
         lateDetects := w.lateDetects + if w.shuts > 0 then 1 else 0)
    case Recognise(j) =>
      var packet := w.handed[j][0];
      w.(handed := w.handed[j := w.handed[j][1..]], asr := AsrInner(u)(w.asr, packet).state,
         late := if w.shuts > 0 then w.late + [MeetAsr(packet, u.asrEnv(w.asr.calls))] else w.late)
    case Mark => w.(closed := true, closers := w.closers + 1)
    case Shutdown =>
      var shut := w.(closers := w.closers - 1, shuts := w.shuts + 1, asr := w.asr.(inner := Shut(w.asr.inner)));
      if w.shuts > 0 then shut else shut.(atShut := w.asr.inner, waiting := |w.inFlight|)
  }

  /** A run takes the enabled steps of a schedule; a step that is not enabled does not happen. */
  function Exec(u: Setup, w: World, schedule: seq<Step>): World {
    if schedule == [] then w
    else
      var before, step := Exec(u, w, schedule[..|schedule| - 1]), schedule[|schedule| - 1];
      if Enabled(before, step) then Next(u, before, step) else before
  }

  lemma {:induction false} ExecThen(u: Setup, w: World, schedule: seq<Step>, step: Step)
    requires Enabled(Exec(u, w, schedule), step)
    ensures Exec(u, w, schedule + [step]) == Next(u, Exec(u, w, schedule), step)
  {
    assert (schedule + [step])[..|schedule + [step]| - 1] == schedule;
  }

  // ----- an uninterrupted push is one call of the chain

  function Takes(j: nat, n: nat): (steps: seq<Step>)
    ensures |steps| == n
  {
    seq(n, i => Recognise(j))
  }

  lemma {:induction false} TakesNext(u: Setup, e: World, j: nat, packets: seq<Packet>, n: nat)
    requires j < |e.handed| && n < |packets| && e.handed[j] == packets[n..]
    ensures var next := Next(u, e, Recognise(j));
      && next.asr == AsrInner(u)(e.asr, packets[n]).state
      && next.vad == e.vad && next.handed == e.handed[j := packets[n + 1..]]
  {
    assert packets[n..][1..] == packets[n + 1..] && packets[n..][0] == packets[n];
  }

  lemma {:induction false} TakesAll(u: Setup, w: World, j: nat, n: nat)
    requires j < |w.handed| && n <= |w.handed[j]|
    ensures var e := Exec(u, w, Takes(j, n));
      && e.asr == Drain(AsrInner(u), w.asr, w.handed[j][..n]).state
      && e.vad == w.vad && e.handed == w.handed[j := w.handed[j][n..]]
    decreases n
  {
    if n > 0 {
      TakesAll(u, w, j, n - 1);
      assert Takes(j, n)[..n - 1] == Takes(j, n - 1);
      var packets := w.handed[j];
      TakesNext(u, Exec(u, w, Takes(j, n - 1)), j, packets, n - 1);
      assert packets[..n][..n - 1] == packets[..n - 1];
    }
  }

  lemma {:induction false} StatesFront<S, P, E>(stages: seq<Stage<S, P, E>>, states: seq<S>, inputs: seq<P>)
    requires |stages| == |states| > 0
    ensures var o := Drain(stages[0].step, states[0], inputs);
      States(Through(stages, states, inputs)) == [o.state] + States(Through(stages[1..], states[1..], o.packets))
  {}

  lemma {:induction false} FourStages<S, P, E>(stages: seq<Stage<S, P, E>>, states: seq<S>, inputs: seq<P>)
    requires |stages| == |states| == 4
    ensures var o0 := Drain(stages[0].step, states[0], inputs);
      var o1 := Drain(stages[1].step, states[1], o0.packets);
      var o2 := Drain(stages[2].step, states[2], o1.packets);
      var o3 := Drain(stages[3].step, states[3], o2.packets);
      States(Through(stages, states, inputs)) == [o0.state, o1.state, o2.state, o3.state]
  {
    var o0 := Drain(stages[0].step, states[0], inputs);
    var o1 := Drain(stages[1].step, states[1], o0.packets);
    var o2 := Drain(stages[2].step, states[2], o1.packets);
    StatesFront(stages, states, inputs);
    StatesFront(stages[1..], states[1..], o0.packets);
    StatesFront(stages[1..][1..], states[1..][1..], o1.packets);
    StatesFront(stages[1..][1..][1..], states[1..][1..][1..], o2.packets);
    assert states[1..][1..][1..][1..] == [];
  }

  /** Taken without a step of another thread in between, a push past the test is exactly one call of the chain: the
      detector and the recogniser end up as the stages of the chain do. */
  lemma {:induction false} UninterruptedPush(u: Setup, w: World, i: nat, recorded: nat)
    requires i < |w.inFlight|
    ensures var w' := Next(u, w, Detect(i));
      var e := Exec(u, w', Takes(|w.handed|, |w'.handed[|w.handed|]|));
      var states := [OfDenoise, OfRecorder(recorded), OfVad(w.vad), OfAsr(w.asr)];
      var after := States(Through(Stages(u), states, [AudioPacket(u.trackID, w.inFlight[i])]));
      && |after| == 4 && after[2] == OfVad(e.vad) && after[3] == OfAsr(e.asr)
  {
    var packet := AudioPacket(u.trackID, w.inFlight[i]);
    var w' := Next(u, w, Detect(i));
    var handed := w'.handed[|w.handed|];
    TakesAll(u, w', |w.handed|, |handed|);
    assert handed[..|handed|] == handed;
    DenoisePasses(OfDenoise, [packet]);
    RecorderPasses(OfRecorder(recorded), [packet]);
    OnVadAlone(VadInner(u), w.vad, [packet]);
    DrainOne(VadInner(u), w.vad, packet);
    OnAsrAlone(AsrInner(u), w.asr, handed);
    FourStages(Stages(u), [OfDenoise, OfRecorder(recorded), OfVad(w.vad), OfAsr(w.asr)], [packet]);
  }

  // ----- what every interleaving keeps

  predicate Inv(u: Setup, w: World) {
    && Orderly(w.asr.inner)
    && (w.closers + w.shuts > 0 ==> w.closed)
    && (w.shuts == 0 ==> !w.asr.inner.shut && w.lateDetects == 0 && w.late == [])
    && (w.shuts > 0 ==>
          && w.lateDetects + |w.inFlight| == w.waiting
          && Orderly(w.atShut) && !w.atShut.shut
          && w.asr.inner.shut
          && w.asr.inner == Drain(Recogniser(u.trackID, Segmented(u)), Shut(w.atShut), w.late).state)
  }

  lemma {:induction false} RecogniseKeepsInv(u: Setup, w: World, j: nat)
    requires Inv(u, w) && Enabled(w, Recognise(j))
    ensures Inv(u, Next(u, w, Recognise(j)))
  {
    var fed := MeetAsr(w.handed[j][0], u.asrEnv(w.asr.calls));
    ConsumeIsOrderly(u.trackID, Segmented(u), w.asr.inner, fed);
    assert (w.late + [fed])[..|w.late|] == w.late;
  }

  lemma {:induction false} ShutdownKeepsInv(u: Setup, w: World)
    requires Inv(u, w) && w.closers > 0
    ensures Inv(u, Next(u, w, Shutdown))
  {
    if w.shuts == 0 { ShutClosesAll(w.asr.inner); }
  }

  lemma {:induction false} Always(u: Setup, schedule: seq<Step>)
    ensures Inv(u, Exec(u, BEGIN, schedule))
    decreases |schedule|
  {
    if schedule != [] {
      var front, step := schedule[..|schedule| - 1], schedule[|schedule| - 1];
      Always(u, front);
      var w := Exec(u, BEGIN, front);
      if Enabled(w, step) {
        match step
        case Recognise(j) => RecogniseKeepsInv(u, w, j);
        case Shutdown => ShutdownKeepsInv(u, w);
        case _ =>
      }
    }
  }

  /** Under every interleaving, once the recogniser has been closed: only pushes that were past the test at that
      moment still reach the detector; and a session is open, which nothing will close, if and only if the
      recogniser had not failed, was refused no session since, and what it took since ends in unsettled speech. */
  lemma {:induction false} LeftOpenIff(u: Setup, schedule: seq<Step>)
    ensures var w := Exec(u, BEGIN, schedule);
      w.shuts > 0 ==>
        && w.lateDetects + |w.inFlight| == w.waiting
        && (w.asr.inner.current.Some? <==>
              !w.atShut.failed && !Refused(Segmented(u), w.late) && !Settled(Segmented(u), w.late))
        && Shut(w.asr.inner) == w.asr.inner
  {
    Always(u, schedule);
    var w := Exec(u, BEGIN, schedule);
    if w.shuts > 0 { ReopensIff(u.trackID, Segmented(u), w.atShut, w.late); }
  }

  /** In particular, if the recogniser took nothing since, no session is open and every session was closed once. */
  lemma {:induction false} ClosedForGood(u: Setup, schedule: seq<Step>)
    requires var w := Exec(u, BEGIN, schedule); w.shuts > 0 && w.late == []
    ensures var s := Exec(u, BEGIN, schedule).asr.inner;
      s.current.None? && forall k :: 0 <= k < |s.sessions| ==> s.sessions[k].closes == 1
  {
    LeftOpenIff(u, schedule);
    Always(u, schedule);
  }

  // ----- two runs that leave a session open

  lemma {:induction false} OneSpeech(fed: Fed)
    requires Speech(false, fed.packet) && fed.cue.newSession.None?
    ensures !Refused(false, [fed]) && !Settled(false, [fed])
  {
    assert [fed][..0] == [];
  }

  /** Without segments the detector hands on what it gets. */
  lemma {:induction false} PassedOn(u: Setup, data: Payload)
    requires !Segmented(u) && data != []
    ensures VadInner(u)(BEGIN.vad, AudioPacket(u.trackID, data)).packets == [AudioPacket(u.trackID, data)]
  {
    var packet := AudioPacket(u.trackID, data);
    assert Process(u.p, INITIAL, MeetVad(packet, u.vadEnv(0))).result.packets == [packet];
  }

  /** The stream just closed over fresh stages, with these pushes in flight and behind the detector. */
  predicate ClosedOverPush(w: World, inFlight: seq<Payload>, handed: seq<seq<Packet>>) {
    && w.shuts == 1 && w.inFlight == inFlight && w.handed == handed
    && w.atShut == FRESH && w.late == [] && w.asr.calls == 0
  }

  lemma {:induction false} CloseOverPush(u: Setup, w: World, schedule: seq<Step>)
    requires Exec(u, BEGIN, schedule) == w && w.shuts == 0 && w.asr == BEGIN.asr && w.late == []
    ensures var e := Exec(u, BEGIN, schedule + [Mark] + [Shutdown]);
      ClosedOverPush(e, w.inFlight, w.handed) && e.vad == w.vad
  {
    ExecThen(u, BEGIN, schedule, Mark);
    ExecThen(u, BEGIN, schedule + [Mark], Shutdown);
  }

  lemma {:induction false} LateRecognise(u: Setup, schedule: seq<Step>, packet: Packet)
    requires !Segmented(u) && Speech(false, packet) && u.asrEnv(0).newSession.None?
    requires ClosedOverPush(Exec(u, BEGIN, schedule), [], [[packet]])
    ensures Exec(u, BEGIN, schedule + [Recognise(0)]).asr.inner.current.Some?
  {
    ExecThen(u, BEGIN, schedule, Recognise(0));
    var fed := MeetAsr(packet, u.asrEnv(0));
    assert [] + [fed] == [fed];
    OneSpeech(fed);
    LeftOpenIff(u, schedule + [Recognise(0)]);
  }

  lemma {:induction false} Tested(u: Setup, data: Payload)
    ensures Exec(u, BEGIN, [Test(data)]) == BEGIN.(inFlight := [data])
  {
    assert [Test(data)][..0] == [] && [] + [data] == [data];
  }

  /** The only push in flight passes the fresh detector. */
  lemma {:induction false} DetectsAlone(u: Setup, w: World, data: Payload)
    requires !Segmented(u) && data != []
    requires w.inFlight == [data] && w.handed == [] && w.vad == BEGIN.vad
    ensures var e := Next(u, w, Detect(0));
      && e.inFlight == [] && e.handed == [[AudioPacket(u.trackID, data)]]
      && e.asr == w.asr && e.shuts == w.shuts && e.atShut == w.atShut && e.late == w.late
  {
    PassedOn(u, data);
    assert [data][..0] + [data][1..] == [];
    assert [] + [[AudioPacket(u.trackID, data)]] == [[AudioPacket(u.trackID, data)]];
  }

  /** A push that was past the test opens a session on the closed stream. */
  lemma {:induction false} LatePushOpens(u: Setup, data: Payload)
    requires !Segmented(u) && data != [] && !IsSilent(data) && u.asrEnv(0).newSession.None?
    ensures Exec(u, BEGIN, [Test(data)] + [Mark] + [Shutdown] + [Detect(0)] + [Recognise(0)]).asr.inner.current.Some?
  {
    Tested(u, data);
    CloseOverPush(u, BEGIN.(inFlight := [data]), [Test(data)]);
    var closed := [Test(data)] + [Mark] + [Shutdown];
    DetectsAlone(u, Exec(u, BEGIN, closed), data);
    ExecThen(u, BEGIN, closed, Detect(0));
    LateRecognise(u, closed + [Detect(0)], AudioPacket(u.trackID, data));
  }

  /** So does one that the close catches between the two stages. */
  lemma {:induction false} CloseBetweenStages(u: Setup, data: Payload)
    requires !Segmented(u) && data != [] && !IsSilent(data) && u.asrEnv(0).newSession.None?
    ensures Exec(u, BEGIN, [Test(data)] + [Detect(0)] + [Mark] + [Shutdown] + [Recognise(0)]).asr.inner.current.Some?
  {
    Tested(u, data);
    DetectsAlone(u, BEGIN.(inFlight := [data]), data);
    ExecThen(u, BEGIN, [Test(data)], Detect(0));
    var detected := [Test(data)] + [Detect(0)];
    CloseOverPush(u, Exec(u, BEGIN, detected), detected);
    LateRecognise(u, detected + [Mark] + [Shutdown], AudioPacket(u.trackID, data));
  }
}
