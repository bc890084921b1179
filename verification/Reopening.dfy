/** When the recognition stage holds an open session: read off from the packets it was given. Closing the stage does
    not keep later packets from opening a session again, which nothing then closes. */
module Reopening {
  import opened Media
  import opened Streams
  import opened Asr

  /** Whether the stage takes the packet for speech: audio that is not empty and, without segments, not silent. */
  predicate Speech(segmented: bool, packet: Packet) {
    !packet.IsSegmentEnd() && packet.data != [] && (segmented || !IsSilent(packet.data))
  }

  predicate Silence(segmented: bool, packet: Packet) {
    !packet.IsSegmentEnd() && packet.data != [] && !segmented && IsSilent(packet.data)
  }

  /** The silent packets since the last speech. */
  function SilentSince(segmented: bool, fed: seq<Fed>): nat {
    if fed == [] then 0
    else
      var front, last := fed[..|fed| - 1], fed[|fed| - 1].packet;
      if Speech(segmented, last) then 0
      else SilentSince(segmented, front) + if Silence(segmented, last) then 1 else 0
  }

  /** No speech since the last end mark, or since the silence that ends speech without segments. */
  predicate Settled(segmented: bool, fed: seq<Fed>) {
    fed == [] ||
    var front, last := fed[..|fed| - 1], fed[|fed| - 1].packet;
    if last.IsSegmentEnd() then true
    else if Speech(segmented, last) then false
    else Settled(segmented, front) || (Silence(segmented, last) && SilentSince(segmented, fed) >= SILENT_PACKETS)
  }

  /** The provider refused a session to some first packet of speech. */
  predicate Refused(segmented: bool, fed: seq<Fed>) {
    fed != [] &&
    var front, last := fed[..|fed| - 1], fed[|fed| - 1];
    || Refused(segmented, front)
    || (Speech(segmented, last.packet) && Settled(segmented, front) && last.cue.newSession.Some?)
  }

  /** What a stage without a session comes to after the given packets. */
  predicate Comes(s: AsrState, r: AsrState, settled: bool, refused: bool, silent: nat) {
    && Handles(r) && r.shut == s.shut
    && (r.failed <==> s.failed || refused)
    && (r.current.Some? <==> !s.failed && !refused && !settled)
    && (r.current.Some? ==> r.silence == silent)
  }

  lemma {:induction false} ComesStep(trackID: string, segmented: bool, s: AsrState, r: AsrState, front: seq<Fed>,
          f: Fed)
    requires Comes(s, r, Settled(segmented, front), Refused(segmented, front), SilentSince(segmented, front))
    requires segmented ==> SilentSince(segmented, front) == 0
    ensures var fed := front + [f];
      Comes(s, Consume(trackID, segmented, r, f).state, Settled(segmented, fed), Refused(segmented, fed),
          SilentSince(segmented, fed))
  {
    assert (front + [f])[..|front|] == front;
  }

  lemma {:induction false} NoSilenceInSegments(fed: seq<Fed>)
    ensures SilentSince(true, fed) == 0
    decreases |fed|
  {
    if fed != [] { NoSilenceInSegments(fed[..|fed| - 1]); }
  }

  lemma {:induction false} RunComes(trackID: string, segmented: bool, s: AsrState, fed: seq<Fed>)
    requires s.current.None?
    ensures Comes(s, Drain(Recogniser(trackID, segmented), s, fed).state,
                  Settled(segmented, fed), Refused(segmented, fed), SilentSince(segmented, fed))
    decreases |fed|
  {
    if fed != [] {
      var front, f := fed[..|fed| - 1], fed[|fed| - 1];
      RunComes(trackID, segmented, s, front);
      if segmented { NoSilenceInSegments(front); }
      ComesStep(trackID, segmented, s, Drain(Recogniser(trackID, segmented), s, front).state, front, f);
      assert front + [f] == fed;
    }
  }

  /** A stage that has been closed ends up with an open session if and only if it had not failed, no session was
      refused to it since, and the packets it still got end in unsettled speech. Closing it again closes nothing. */
  lemma {:induction false} ReopensIff(trackID: string, segmented: bool, s: AsrState, late: seq<Fed>)
    requires Orderly(s) && !s.shut
    ensures var r := Drain(Recogniser(trackID, segmented), Shut(s), late).state;
      && (r.current.Some? <==> !s.failed && !Refused(segmented, late) && !Settled(segmented, late))
      && Shut(r) == r
  {
    RunComes(trackID, segmented, Shut(s), late);
  }

  /** For instance a fresh stage that is closed and then given one packet of speech. */
  lemma {:induction false} LatePacketReopens(trackID: string, data: Payload)
    requires data != []
    ensures var late := [Fed(AudioPacket(trackID, data), AsrCue(None, None, None))];
      Drain(Recogniser(trackID, true), Shut(FRESH), late).state.current == Some(0)
  {
    var fed := Fed(AudioPacket(trackID, data), AsrCue(None, None, None));
    var shut := FRESH.(shut := true);
    assert Shut(FRESH) == shut;
    DrainOne(Recogniser(trackID, true), shut, fed);
    assert Consume(trackID, true, shut, fed) == Offer(trackID, shut, data, fed.cue);
  }
}
