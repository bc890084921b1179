/** The detector as the object that is updated in place, proved against the step function. */
module Vad {
  import opened Media
  import opened Windows
  import opened VadModel

  class VAD {
    const p: Params
    const preRoll: BufferedAudio
    const startBuffer: BufferedAudio
    const tailBuffer: BufferedAudio
    const startActivity: ActivityWindow
    const speechActivity: ActivityWindow
    var phase: Phase
    var noiseFloor: real
    var noiseReady: bool
    var segmentStartMs: int
    var segmentDurationMs: int

    ghost function Parts(): set<object> {
      {this, preRoll, startBuffer, tailBuffer, startActivity, speechActivity}
    }

    ghost predicate Valid()
      reads Parts()
    {
      && preRoll != startBuffer && preRoll != tailBuffer && startBuffer != tailBuffer
      && startActivity != speechActivity
      && preRoll.Valid() && startBuffer.Valid() && tailBuffer.Valid()
      && startActivity.Valid() && speechActivity.Valid()
    }

    ghost function State(): VadState
      reads Parts()
    {
      VadState(phase, noiseFloor, noiseReady,
               preRoll.Contents(), startBuffer.Contents(), tailBuffer.Contents(),
               startActivity.entries, speechActivity.entries,
               segmentStartMs, segmentDurationMs)
    }

    constructor (option: VadOption, hasScorer: bool)
      ensures Valid() && fresh(Parts())
      ensures p == Derive(option, hasScorer) && State() == INITIAL
    {
      p := Derive(option, hasScorer);
      preRoll := new BufferedAudio();
      startBuffer := new BufferedAudio();
      tailBuffer := new BufferedAudio();
      startActivity := new ActivityWindow();
      speechActivity := new ActivityWindow();
      phase, noiseFloor, noiseReady, segmentStartMs, segmentDurationMs := Idle, 0.0, false, 0, 0;
    }

    method Process(f: Frame) returns (result: Result, asked: seq<Payload>)
      requires Valid()
      modifies Parts()
      ensures Valid()
      ensures Outcome(State(), result, asked) == VadModel.Process(p, old(State()), f)
    {
      var g := f.(packet := Resolved(f.packet));
      if g.packet.kind != Audio {
        return Result([g.packet], []), [];
      }
      if |g.packet.data| == 0 {
        return NOTHING, [];
      }
      if p.mode == Passthrough {
        return Result([g.packet], []), [];
      }
      var durationMs := PcmDurationMs(g.packet.data, p.sampleRate);
      if durationMs <= 0 {
        return NOTHING, [];
      }
      match phase {
        case Idle => result, asked := ProcessIdle(g, durationMs);
        case CandidateStart => result, asked := ProcessCandidateStart(g, durationMs);
        case InSpeech => result := ProcessSpeaking(g, durationMs); asked := [];
        case CandidateEnd => result, asked := ProcessCandidateEnd(g, durationMs);
      }
    }

    method ProcessIdle(f: Frame, durationMs: int) returns (result: Result, asked: seq<Payload>)
      requires Valid() && f.packet.data != []
      modifies Parts()
      ensures Valid()
      ensures Outcome(State(), result, asked) == VadModel.ProcessIdle(p, old(State()), f, durationMs)
    {
      var active := EnterHit(f.rms);
      if !active {
        ObserveNoise(f.rms);
        preRoll.Push(f.packet.data, durationMs, p.preRollMs);
        return NOTHING, [];
      }
      phase := CandidateStart;
      startBuffer.Reset();
      startActivity.Reset();
      startBuffer.Push(f.packet.data, durationMs, p.startWindowMs);
      startActivity.Push(active, durationMs, p.startWindowMs);
      result, asked := MaybeConfirmStart(f);
    }

    method ProcessCandidateStart(f: Frame, durationMs: int) returns (result: Result, asked: seq<Payload>)
      requires Valid() && f.packet.data != []
      modifies Parts()
      ensures Valid()
      ensures Outcome(State(), result, asked) == VadModel.ProcessCandidateStart(p, old(State()), f, durationMs)
    {
      HearStart(f, durationMs);
      result, asked := MaybeConfirmStart(f);
    }

    method HearStart(f: Frame, durationMs: int)
      requires Valid() && f.packet.data != []
      modifies this, startBuffer, startActivity
      ensures Valid()
      ensures State() == StartHeard(p, old(State()), f, durationMs)
    {
      var active := EnterHit(f.rms);
      if !active {
        ObserveNoise(f.rms);
      }
      startBuffer.Push(f.packet.data, durationMs, p.startWindowMs);
      startActivity.Push(active, durationMs, p.startWindowMs);
    }

    method Hear(f: Frame, durationMs: int)
      requires Valid()
      modifies this, speechActivity
      ensures Valid()
      ensures State() == Heard(p, old(State()), f, durationMs)
    {
      var active := KeepHit(f.rms);
      if !active {
        ObserveNoise(f.rms);
      }
      speechActivity.Push(active, durationMs, p.endWindowMs);
    }

    method ProcessSpeaking(f: Frame, durationMs: int) returns (result: Result)
      requires Valid() && f.packet.data != []
      modifies Parts()
      ensures Valid()
      ensures Outcome(State(), result, []) == VadModel.ProcessSpeaking(p, old(State()), f, durationMs)
    {
      Hear(f, durationMs);
      ghost var heard := State();
      if speechActivity.totalMs >= p.endWindowMs && !RatioOver(speechActivity, 1) {
        phase := CandidateEnd;
        tailBuffer.Reset();
        tailBuffer.Push(f.packet.data, durationMs, 0);
        assert State() == heard.(phase := CandidateEnd, tailBuffer := Pushed([], f.packet.data, durationMs, 0));
        return NOTHING;
      }
      segmentDurationMs := segmentDurationMs + durationMs;
      assert State() == heard.(segmentDurationMs := heard.segmentDurationMs + durationMs);
      result := MaybeForceSegmentEnd(f, Result([f.packet], []));
    }

    method ProcessCandidateEnd(f: Frame, durationMs: int) returns (result: Result, asked: seq<Payload>)
      requires Valid() && f.packet.data != []
      modifies Parts()
      ensures Valid()
      ensures Outcome(State(), result, asked) == VadModel.ProcessCandidateEnd(p, old(State()), f, durationMs)
    {
      Hear(f, durationMs);
      ghost var heard := State();
      tailBuffer.Push(f.packet.data, durationMs, 0);
      assert State() == heard.(tailBuffer := Pushed(heard.tailBuffer, f.packet.data, durationMs, 0));
      result, asked := DecideTail(f);
    }

    method DecideTail(f: Frame) returns (result: Result, asked: seq<Payload>)
      requires Valid()
      modifies Parts()
      ensures Valid()
      ensures Outcome(State(), result, asked) == VadModel.DecideTail(p, old(State()), f)
    {
      asked := [];
      if speechActivity.totalMs >= p.endWindowMs && RatioAtLeast(speechActivity, 2) {
        var packets := ReturnTail(f.packet.trackID);
        result := MaybeForceSegmentEnd(f, Result(packets, []));
        return;
      }
      if tailBuffer.totalMs < p.silencePaddingMs {
        return NOTHING, [];
      }
      if speechActivity.totalMs < p.endWindowMs || RatioOver(speechActivity, 1) {
        return NOTHING, [];
      }
      result, asked := ConfirmEnd(f);
    }

    method MaybeConfirmStart(f: Frame) returns (result: Result, asked: seq<Payload>)
      requires Valid()
      modifies Parts()
      ensures Valid()
      ensures Outcome(State(), result, asked) == VadModel.MaybeConfirmStart(p, old(State()), f)
    {
      asked := [];
      if startBuffer.totalMs < p.startWindowMs || startActivity.totalMs < p.startWindowMs {
        return NOTHING, asked;
      }
      if !RatioAtLeast(startActivity, 3) {
        if startActivity.activeMs == 0 {
          RejectStart();
        }
        return NOTHING, asked;
      }
      var accepted := true;
      if p.mode == Hybrid && p.hasScorer {
        var head := preRoll.Bytes();
        var rest := startBuffer.Bytes();
        asked := [head + rest];
        if f.answer.Scored? {
          accepted := f.answer.score >= p.startThreshold;
        }
      }
      if !accepted {
        RejectStart();
        return NOTHING, asked;
      }
      result := AcceptStart(f.packet.trackID, f.now);
    }

    method AcceptStart(trackID: string, now: int) returns (result: Result)
      requires Valid()
      modifies this, preRoll, startBuffer, startActivity, speechActivity
      ensures Valid()
      ensures (State(), result) == VadModel.AcceptStart(old(State()), trackID, now)
    {
      segmentStartMs := now - startBuffer.totalMs;
      if segmentStartMs < 0 {
        segmentStartMs := now;
      }
      segmentDurationMs := startBuffer.totalMs;
      phase := InSpeech;
      speechActivity.CopyFrom(startActivity);
      var packets := HandOnStart(trackID);
      result := Result(packets, [Speaking(trackID, now)]);
    }

    /** Takes the packets of the pre-roll and the start buffer and empties both, and the start window. */
    method HandOnStart(trackID: string) returns (packets: seq<Packet>)
      requires Valid()
      modifies preRoll, startBuffer, startActivity
      ensures Valid() && State() == old(State()).(preRoll := [], startBuffer := [], startActivity := [])
      ensures packets == Packed(trackID, old(preRoll.Contents())) + Packed(trackID, old(startBuffer.Contents()))
    {
      packets := preRoll.Packets(trackID);
      var more := startBuffer.Packets(trackID);
      packets := packets + more;
      preRoll.Reset();
      startBuffer.Reset();
      startActivity.Reset();
    }

    method RejectStart()
      requires Valid()
      modifies this, preRoll, startBuffer, startActivity
      ensures Valid()
      ensures State() == VadModel.RejectStart(p, old(State()))
    {
      preRoll.Append(startBuffer, p.preRollMs);
      phase := Idle;
      startBuffer.Reset();
      startActivity.Reset();
    }

    method ConfirmEnd(f: Frame) returns (result: Result, asked: seq<Payload>)
      requires Valid()
      modifies Parts()
      ensures Valid()
      ensures Outcome(State(), result, asked) == VadModel.ConfirmEnd(p, old(State()), f)
    {
      asked := [];
      var confirmed := true;
      if p.mode == Hybrid && p.hasScorer {
        var tail := tailBuffer.Bytes();
        asked := [tail];
        if f.answer.Scored? {
          confirmed := f.answer.score < p.endThreshold;
        }
      }
      if !confirmed {
        var packets := ReturnTail(f.packet.trackID);
        return Result(packets, []), asked;
      }
      var packets := tailBuffer.PrefixPackets(f.packet.trackID, p.tailPaddingMs);
      packets := packets + [EndPacket(f.packet.trackID)];
      var startTime := if segmentStartMs == 0 then f.now else segmentStartMs;
      result := Result(packets, [Silence(f.packet.trackID, f.now), Eou(f.packet.trackID, f.now, startTime, f.now)]);
      ResetToIdle();
    }

    /** The tail was speech after all. */
    method ReturnTail(trackID: string) returns (packets: seq<Packet>)
      requires Valid()
      modifies this, tailBuffer
      ensures Valid()
      ensures State() == VadModel.ReturnTail(old(State()))
      ensures packets == Packed(trackID, old(tailBuffer.Contents()))
    {
      phase := InSpeech;
      packets := tailBuffer.Packets(trackID);
      segmentDurationMs := segmentDurationMs + tailBuffer.totalMs;
      tailBuffer.Reset();
    }

    method MaybeForceSegmentEnd(f: Frame, done: Result) returns (result: Result)
      requires Valid()
      modifies Parts()
      ensures Valid()
      ensures (State(), result) == VadModel.MaybeForceSegmentEnd(p, old(State()), f, done)
    {
      if p.maxSegmentMs <= 0 || segmentDurationMs < p.maxSegmentMs {
        return done;
      }
      var startTime := if segmentStartMs == 0 then f.now else segmentStartMs;
      result := Result(done.packets + [EndPacket(f.packet.trackID)],
                       done.events + [Silence(f.packet.trackID, f.now),
                           Eou(f.packet.trackID, f.now, startTime, f.now)]);
      ResetToIdle();
    }

    method ResetToIdle()
      requires Valid()
      modifies Parts()
      ensures Valid()
      ensures State() == VadModel.ResetToIdle(old(State()))
    {
      phase := Idle;
      preRoll.Reset();
      startBuffer.Reset();
      tailBuffer.Reset();
      startActivity.Reset();
      speechActivity.Reset();
      segmentStartMs, segmentDurationMs := 0, 0;
    }

    method ObserveNoise(rms: real)
      modifies this
      ensures phase == old(phase) && segmentStartMs == old(segmentStartMs)
          && segmentDurationMs == old(segmentDurationMs)
      ensures noiseReady
      ensures noiseFloor == Smoothed(old(noiseReady), old(noiseFloor), rms)
    {
      if !noiseReady {
        noiseFloor := rms;
        noiseReady := true;
        return;
      }
      noiseFloor := noiseFloor * (1.0 - 0.1) + rms * 0.1;
    }

    predicate EnterHit(rms: real)
      reads this
    {
      Hit(p.minEnterRMS, noiseReady, noiseFloor, p.enterRatio, rms)
    }

    predicate KeepHit(rms: real)
      reads this
    {
      Hit(p.minKeepRMS, noiseReady, noiseFloor, p.keepRatio, rms)
    }

    static predicate RatioAtLeast(w: ActivityWindow, fifths: int)
      reads w
    {
      if w.totalMs <= 0 then fifths <= 0 else 5 * w.activeMs >= fifths * w.totalMs
    }

    static predicate RatioOver(w: ActivityWindow, fifths: int)
      reads w
    {
      if w.totalMs <= 0 then fifths < 0 else 5 * w.activeMs > fifths * w.totalMs
    }
  }
}
