/** Media packets and protocol events exchanged along the processor chain. */
module Media {

  datatype Option<+T> = None | Some(value: T)

  type byte = x: int | 0 <= x < 256

  type Payload = seq<byte>

  /** A packet is labelled audio, segment end, or not at all; an unlabelled packet counts as audio. */
  datatype PacketKind = Audio | SegmentEnd | Unlabelled

  datatype Packet = Packet(trackID: string, data: Payload, kind: PacketKind) {
    predicate IsSegmentEnd() {
      kind == SegmentEnd
    }
  }

  datatype Event =
    | Speaking(trackID: string, timestamp: int)
    | Silence(trackID: string, timestamp: int)
    | Eou(trackID: string, timestamp: int, startTime: int, endTime: int)
    | Failure(trackID: string, sender: string, message: string)

  /** What one call of a processor hands on: packets for the next stage and protocol events. */
  datatype Result = Result(packets: seq<Packet>, events: seq<Event>)

  const NOTHING := Result([], [])

  /** The index that recognition events carry is a 32-bit unsigned integer. */
  const INDEX_WRAP := 0x1_0000_0000

  function AudioPacket(trackID: string, data: Payload): Packet {
    Packet(trackID, data, Audio)
  }

  function EndPacket(trackID: string): Packet {
    Packet(trackID, [], SegmentEnd)
  }

  /** The payloads of the audio packets of a stream, in order. */
  function AudioData(packets: seq<Packet>): (data: seq<Payload>)
    ensures |data| <= |packets|
  {
    if packets == [] then []
    else
      var front := AudioData(packets[..|packets| - 1]);
      var last := packets[|packets| - 1];
      if last.IsSegmentEnd() then front else front + [last.data]
  }

  lemma {:induction false} AudioDataConcat(a: seq<Packet>, b: seq<Packet>)
    ensures AudioData(a + b) == AudioData(a) + AudioData(b)
  {
    if b == [] {
      assert a + b == a;
    } else {
      assert (a + b)[..|a + b| - 1] == a + b[..|b| - 1];
      AudioDataConcat(a, b[..|b| - 1]);
    }
  }

  /** Payloads one after another. */
  function Flat(data: seq<Payload>): Payload {
    if data == [] then [] else Flat(data[..|data| - 1]) + data[|data| - 1]
  }

  lemma {:induction false} FlatConcat(a: seq<Payload>, b: seq<Payload>)
    ensures Flat(a + b) == Flat(a) + Flat(b)
    decreases |b|
  {
    if b == [] {
      assert a + b == a;
    } else {
      assert (a + b)[..|a + b| - 1] == a + b[..|b| - 1];
      FlatConcat(a, b[..|b| - 1]);
    }
  }

  // ----- cutting a packet stream at its end marks

  /** The audio since the last end mark. */
  function OpenGroup(packets: seq<Packet>): seq<Payload> {
    if packets == [] then []
    else
      var last := packets[|packets| - 1];
      if last.IsSegmentEnd() then [] else OpenGroup(packets[..|packets| - 1]) + [last.data]
  }

  /** The audio before each end mark, one group per mark. */
  function ClosedGroups(packets: seq<Packet>): seq<seq<Payload>> {
    if packets == [] then []
    else
      var front := packets[..|packets| - 1];
      if packets[|packets| - 1].IsSegmentEnd() then ClosedGroups(front) + [OpenGroup(front)] else ClosedGroups(front)
  }

  predicate NoEndMark(packets: seq<Packet>) {
    forall i :: 0 <= i < |packets| ==> !packets[i].IsSegmentEnd()
  }

  /** Audio behind a stream joins its open group. */
  lemma {:induction false} GroupsExtend(packets: seq<Packet>, more: seq<Packet>)
    requires NoEndMark(more)
    ensures OpenGroup(packets + more) == OpenGroup(packets) + AudioData(more)
    ensures ClosedGroups(packets + more) == ClosedGroups(packets)
    ensures |AudioData(more)| == |more|
    decreases |more|
  {
    if more == [] {
      assert packets + more == packets;
    } else {
      var front := more[..|more| - 1];
      GroupsExtend(packets, front);
      assert (packets + more)[..|packets + more| - 1] == packets + front;
    }
  }

  /** Audio and then an end mark close the open group. */
  lemma {:induction false} GroupsClose(packets: seq<Packet>, more: seq<Packet>, end: Packet)
    requires NoEndMark(more) && end.IsSegmentEnd()
    ensures OpenGroup(packets + (more + [end])) == []
    ensures ClosedGroups(packets + (more + [end])) == ClosedGroups(packets) + [OpenGroup(packets) + AudioData(more)]
  {
    GroupsExtend(packets, more);
    var all := packets + (more + [end]);
    assert all[..|all| - 1] == packets + more;
  }
}
