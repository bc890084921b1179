/** The errors of the provider that the recognition stage reports: read off the packets it was given. */
module AsrReports {
  import opened Media
  import opened Streams
  import opened Asr
  import opened Reopening
  import Codec

  /** The error the call with packet f meets after the given packets: a session is refused; writing to the open one
      fails; or the packet ends speech and closing the session fails. A stage that was refused one meets no more. */
  function Meets(segmented: bool, failed: bool, front: seq<Fed>, f: Fed): Option<string> {
    if failed || Refused(segmented, front) then None
    else if Speech(segmented, f.packet) then
      if Settled(segmented, front) && f.cue.newSession.Some? then f.cue.newSession else f.cue.writeError
    else if !Settled(segmented, front) && Settled(segmented, front + [f]) then f.cue.closeError
    else None
  }

  function Failures(trackID: string, segmented: bool, failed: bool, fed: seq<Fed>): seq<Event> {
    if fed == [] then []
    else
      var front, f := fed[..|fed| - 1], fed[|fed| - 1];
      var met := Meets(segmented, failed, front, f);
      Failures(trackID, segmented, failed, front)
      + if met == None then [] else [Failure(trackID, "asr", met.value)]
  }

  lemma {:induction false} StepReports(trackID: string, segmented: bool, s: AsrState, r: AsrState, front: seq<Fed>,
          f: Fed)
    requires Comes(s, r, Settled(segmented, front), Refused(segmented, front), SilentSince(segmented, front))
    requires segmented ==> SilentSince(segmented, front) == 0
    ensures var met := Meets(segmented, s.failed, front, f);
      Consume(trackID, segmented, r, f).events == if met == None then [] else [Failure(trackID, "asr", met.value)]
  {
    assert (front + [f])[..|front|] == front;
  }

  /** From a stage without an open session, over any run: each error of the provider that a call meets is reported by
      exactly one event, in order, under the stage's track and with the provider's words, and nothing else is. */
  lemma {:induction false} ErrorsReported(trackID: string, segmented: bool, s: AsrState, fed: seq<Fed>)
    requires s.current.None?
    ensures Drain(Recogniser(trackID, segmented), s, fed).events == Failures(trackID, segmented, s.failed, fed)
    decreases |fed|
  {
    if fed != [] {
      var front, f := fed[..|fed| - 1], fed[|fed| - 1];
      ErrorsReported(trackID, segmented, s, front);
      RunComes(trackID, segmented, s, front);
      if segmented { NoSilenceInSegments(front); }
      StepReports(trackID, segmented, s, Drain(Recogniser(trackID, segmented), s, front).state, front, f);
    }
  }

  /** For instance a fresh stage that is refused its first session says so. */
  lemma {:induction false} RefusalReported(trackID: string, data: Payload, e: string, more: AsrCue)
    requires data != []
    ensures var fed := [Fed(AudioPacket(trackID, data), more.(newSession := Some(e)))];
      Drain(Recogniser(trackID, true), FRESH, fed).events == [Failure(trackID, "asr", e)]
  {
    var f := Fed(AudioPacket(trackID, data), more.(newSession := Some(e)));
    ErrorsReported(trackID, true, FRESH, [f]);
    assert [f][..0] == [];
    assert Failures(trackID, true, false, []) == [];
    assert Meets(true, false, [], f) == Some(e);
  }

  // ----- when the next result is a first one again

  /** Some packet was an end mark, or ended the speech of an open session. */
  predicate Rearms(segmented: bool, failed: bool, fed: seq<Fed>) {
    fed != [] &&
    var front, last := fed[..|fed| - 1], fed[|fed| - 1].packet;
    || Rearms(segmented, failed, front)
    || last.IsSegmentEnd()
    || (!failed && !Refused(segmented, front) && !Settled(segmented, front) && Settled(segmented, fed))
  }

  lemma {:induction false} StepRearms(trackID: string, segmented: bool, s: AsrState, r: AsrState, front: seq<Fed>,
          f: Fed)
    requires Comes(s, r, Settled(segmented, front), Refused(segmented, front), SilentSince(segmented, front))
    requires segmented ==> SilentSince(segmented, front) == 0
    ensures Consume(trackID, segmented, r, f).state.ttfbSent <==>
      && r.ttfbSent && !f.packet.IsSegmentEnd()
      && !(!s.failed && !Refused(segmented, front) && !Settled(segmented, front) && Settled(segmented, front + [f]))
  {
    assert (front + [f])[..|front|] == front;
  }

  /** The first-result flag that the results set is taken down by exactly these packets. */
  lemma {:induction false} FlagTakenDownIff(trackID: string, segmented: bool, s: AsrState, fed: seq<Fed>)
    requires s.current.None?
    ensures Drain(Recogniser(trackID, segmented), s, fed).state.ttfbSent <==>
      s.ttfbSent && !Rearms(segmented, s.failed, fed)
    decreases |fed|
  {
    if fed != [] {
      var front, f := fed[..|fed| - 1], fed[|fed| - 1];
      FlagTakenDownIff(trackID, segmented, s, front);
      RunComes(trackID, segmented, s, front);
      if segmented { NoSilenceInSegments(front); }
      StepRearms(trackID, segmented, s, Drain(Recogniser(trackID, segmented), s, front).state, front, f);
      assert front + [f] == fed;
    }
  }

  // ----- what counts as silence, and how much of it ends speech without segments

  /** A payload is silent if none of its samples is further than 96 from zero. */
  lemma {:induction false} SilentIff(data: Payload)
    ensures IsSilent(data) <==> forall x :: x in Codec.Samples(data) ==> -96 <= x <= 96
  {
    if forall x :: x in Codec.Samples(data) ==> -96 <= x <= 96 {
      forall i | 0 <= i < |data| / 2 ensures -96 <= Codec.Join(data[2 * i], data[2 * i + 1]) <= 96 {
        assert Codec.Samples(data)[i] in Codec.Samples(data);
      }
    }
  }

  predicate AllSilent(fed: seq<Fed>) {
    forall i :: 0 <= i < |fed| ==> Reopening.Silence(false, fed[i].packet)
  }

  lemma {:induction false} SilenceAdds(front: seq<Fed>, quiet: seq<Fed>)
    requires AllSilent(quiet)
    ensures SilentSince(false, front + quiet) == SilentSince(false, front) + |quiet|
    ensures !Refused(false, front) ==> !Refused(false, front + quiet)
    ensures Settled(false, front + quiet) <==>
      Settled(false, front) || (quiet != [] && SilentSince(false, front) + |quiet| >= 8)
    decreases |quiet|
  {
    if quiet == [] {
      assert front + quiet == front;
    } else {
      assert (front + quiet)[..|front + quiet| - 1] == front + quiet[..|quiet| - 1];
      SilenceAdds(front, quiet[..|quiet| - 1]);
    }
  }

  /** Without segments, a session opened by speech stays open for seven silent packets and is closed by the eighth. */
  lemma {:induction false} EighthSilenceCloses(trackID: string, front: seq<Fed>, f: Fed, quiet: seq<Fed>)
    requires Speech(false, f.packet) && AllSilent(quiet) && !Refused(false, front + [f])
    ensures Drain(Recogniser(trackID, false), FRESH, front + [f] + quiet).state.current.Some? <==> |quiet| < 8
  {
    SilenceAdds(front + [f], quiet);
    RunComes(trackID, false, FRESH, front + [f] + quiet);
  }
}
